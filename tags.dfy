/**
 * The two ways a task's comma-separated `tags` string is turned into labels.
 * The board card and the task card keep every non-blank piece as it is
 * (`tags.split(",").filter(tag => tag.trim())`); the table trims every piece
 * and keeps the empty ones (`value?.split(",").map(tag => tag.trim())`).
 */
module Tags {
  import opened Wrappers
  import opened Text

  /**
   * The pieces that are not all whitespace, in their original order, untrimmed:
   * `filter(tag => tag.trim())`, since a trim is truthy exactly for a piece
   * that is not blank (`NonBlankKeepsTruthyTrims`).
   */
  function NonBlank(parts: seq<string>): (kept: seq<string>)
    ensures |kept| <= |parts|
    ensures forall k :: 0 <= k < |kept| ==> kept[k] in parts && !IsBlank(kept[k])
  {
    if parts == [] then []
    else if !IsBlank(parts[0]) then [parts[0]] + NonBlank(parts[1..])
    else NonBlank(parts[1..])
  }

  /** Filtering a concatenation filters each half: kept pieces stay in order. */
  lemma {:induction false} NonBlankAppend(a: seq<string>, b: seq<string>)
    ensures NonBlank(a + b) == NonBlank(a) + NonBlank(b)
  {
    if a == [] {
      assert a + b == b;
    } else {
      var ab := a + b;
      assert ab[0] == a[0];
      assert ab[1..] == a[1..] + b;
      NonBlankAppend(a[1..], b);
      if !IsBlank(a[0]) {
        calc {
          NonBlank(ab);
          [a[0]] + NonBlank(a[1..] + b);
          [a[0]] + (NonBlank(a[1..]) + NonBlank(b));
          ([a[0]] + NonBlank(a[1..])) + NonBlank(b);
        }
      }
    }
  }

  /** A piece is kept exactly when it occurs among the pieces and is not blank. */
  lemma {:induction false} NonBlankMembership(parts: seq<string>, t: string)
    ensures t in NonBlank(parts) <==> t in parts && !IsBlank(t)
  {
    if parts != [] {
      NonBlankMembership(parts[1..], t);
      assert parts == [parts[0]] + parts[1..];
    }
  }

  /** A piece is kept exactly when it occurs among the pieces and its trim is truthy. */
  lemma NonBlankKeepsTruthyTrims(parts: seq<string>, t: string)
    ensures t in NonBlank(parts) <==> t in parts && Trim(t) != ""
  {
    NonBlankMembership(parts, t);
    TrimEmptyIffBlank(t);
  }

  /**
   * The tag list of the board card and the task card: none for an absent or
   * empty string, otherwise exactly the non-blank pieces, untrimmed and in order.
   */
  function CardTags(tags: Option<string>): (r: seq<string>)
    ensures !Truthy(tags) ==> r == []
    ensures Truthy(tags) ==> r == NonBlank(Split(tags.value))
    ensures Truthy(tags) ==> forall t :: t in r <==> t in Split(tags.value) && !IsBlank(t)
    ensures forall k :: 0 <= k < |r| ==> ',' !in r[k] && !IsBlank(r[k])
  {
    if Truthy(tags) then
      var parts := Split(tags.value);
      assert forall t :: t in NonBlank(parts) <==> t in parts && !IsBlank(t) by {
        forall t ensures t in NonBlank(parts) <==> t in parts && !IsBlank(t) {
          NonBlankMembership(parts, t);
        }
      }
      NonBlank(parts)
    else []
  }

  /** Every piece trimmed, in order. */
  function TrimAll(parts: seq<string>): (r: seq<string>)
    ensures |r| == |parts|
    ensures forall k :: 0 <= k < |r| ==> r[k] == Trim(parts[k])
  {
    if parts == [] then [] else [Trim(parts[0])] + TrimAll(parts[1..])
  }

  /** The tag list of the task table: an absent value gives none, "" gives one empty tag. */
  function TableTags(value: Option<string>): (r: seq<string>)
    ensures value.None? ==> r == []
    ensures value.Some? ==> |r| == |Split(value.value)|
    ensures value.Some? ==> forall k :: 0 <= k < |r| ==> r[k] == Trim(Split(value.value)[k])
  {
    match value
    case None => []
    case Some(s) => TrimAll(Split(s))
  }

  /** Each card tag, once trimmed, is one of the table tags of the same string. */
  lemma CardTagsWithinTableTags(tags: Option<string>)
    ensures forall t :: t in CardTags(tags) ==> Trim(t) in TableTags(tags)
  {
    if Truthy(tags) {
      var parts := Split(tags.value);
      forall t | t in CardTags(tags) ensures Trim(t) in TableTags(tags) {
        NonBlankMembership(parts, t);
        var k :| 0 <= k < |parts| && parts[k] == t;
        assert TableTags(tags)[k] == Trim(t);
      }
    }
  }

  /** Table tags never carry whitespace at either end. */
  lemma TableTagsAreTrimmed(value: Option<string>)
    ensures forall t :: t in TableTags(value) ==> Trim(t) == t
  {
    forall t | t in TableTags(value) ensures Trim(t) == t {
      var k :| 0 <= k < |TableTags(value)| && TableTags(value)[k] == t;
      TrimIdempotent(Split(value.value)[k]);
    }
  }

  /** The pieces of "a, ,  b" and their trims. */
  lemma PieceExamples()
    ensures Split("a, ,  b") == ["a", " ", "  b"]
    ensures Trim("a") == "a" && Trim(" ") == "" && Trim("  b") == "b"
  {
    SplitJoin(["a", " ", "  b"]);
    assert Join(["a", " ", "  b"]) == "a, ,  b";
    TrimOfTrimmed("a");
    TrimEmptyIffBlank(" ");
    assert "  b" == "  " + "b" + "";
    TrimPadded("  ", "b", "");
  }

  /** Of "a", " ", "  b" the blank piece is dropped and "  b" is kept untrimmed. */
  lemma NonBlankExample()
    ensures NonBlank(["a", " ", "  b"]) == ["a", "  b"]
  {
    var a, blank, b := "a", " ", "  b";
    assert NonBlank([b]) == [b] by { NotBlankAt(b, 2); }
    assert NonBlank([blank, b]) == NonBlank([b]) by { assert [blank, b][1..] == [b]; }
    assert NonBlank([a, blank, b]) == [a] + NonBlank([blank, b]) by {
      NotBlankAt(a, 0);
      assert [a, blank, b][1..] == [blank, b];
    }
  }

  /** The card keeps "  b" untrimmed and drops the blank piece. */
  lemma CardTagsExample()
    ensures CardTags(Some("a, ,  b")) == ["a", "  b"]
  {
    PieceExamples();
    NonBlankExample();
  }

  /** The table trims every piece and keeps the blank one as "". */
  lemma TableTagsExample()
    ensures TableTags(Some("a, ,  b")) == ["a", "", "b"]
  {
    var a, blank, b := "a", " ", "  b";
    PieceExamples();
    assert TrimAll([b]) == ["b"];
    assert TrimAll([blank, b]) == [""] + TrimAll([b]) by { assert [blank, b][1..] == [b]; }
    assert TrimAll([a, blank, b]) == ["a"] + TrimAll([blank, b]) by { assert [a, blank, b][1..] == [blank, b]; }
  }

  /** An empty tags string: no card tags, but one empty table tag. */
  lemma EmptyTagsExample()
    ensures CardTags(Some("")) == [] && TableTags(Some("")) == [""]
  {
    assert Split("") == [""];
    assert Trim("") == "";
  }
}
