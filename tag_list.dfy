/**
 * The abstract state of a tag input (its ordered tags and the message shown
 * in the error element) and what each operation of the widget does to it.
 * The class in module TagInputWidget is proved against these functions.
 */
module TagList {
  import opened Tokens

  /** What the widget writes into its error element. */
  datatype Message = NoError | InputEmpty | AlreadyExists | LimitExceeded {
    /** The literal text written with `$error.html(...)`. */
    function Html(): (t: string)
      ensures t == "" <==> this == NoError
    {
      match this
      case NoError => ""
      case InputEmpty => "所输关键词不能为空"
      case AlreadyExists => "该关键词已经存在"
      case LimitExceeded => "您所能填写的关键词已超限"
    }
  }

  /** The tags, in the order they were added, and the last error. */
  datatype State = State(tags: seq<string>, error: Message)

  predicate NoDuplicates(tags: seq<string>) {
    forall i, j :: 0 <= i < j < |tags| ==> tags[i] != tags[j]
  }

  /** The invariant every operation keeps: no tag twice, never more than
      `limit` tags, never the empty tag. */
  predicate Valid(tags: seq<string>, limit: nat) {
    NoDuplicates(tags) && |tags| <= limit && "" !in tags
  }

  /** The position of the first occurrence of `v`. */
  function FirstIndex(tags: seq<string>, v: string): (k: nat)
    requires v in tags
    ensures k < |tags| && tags[k] == v
    ensures forall j :: 0 <= j < k ==> tags[j] != v
  {
    if tags[0] == v then 0 else 1 + FirstIndex(tags[1..], v)
  }

  /** In a valid list the first index of each tag is its own position, so a
      lookup finds every tag where it is. */
  lemma ValidLookup(tags: seq<string>, limit: nat)
    requires Valid(tags, limit)
    ensures forall i :: 0 <= i < |tags| ==> FirstIndex(tags, tags[i]) == i
  {
  }

  /** The list `removeValue` leaves: the first occurrence of `v` is gone; an
      absent `v` changes nothing. */
  function RemoveFirst(tags: seq<string>, v: string): (r: seq<string>)
    ensures v !in tags ==> r == tags
    ensures v in tags ==> |r| == |tags| - 1
  {
    if tags == [] then []
    else if tags[0] == v then tags[1..]
    else [tags[0]] + RemoveFirst(tags[1..], v)
  }

  /** Removal takes away one copy of `v` and loses nothing else. */
  lemma {:induction false} RemoveFirstMultiset(tags: seq<string>, v: string)
    ensures multiset(RemoveFirst(tags, v)) == multiset(tags) - multiset{v}
  {
    if tags != [] {
      assert tags == [tags[0]] + tags[1..];
      if tags[0] != v {
        RemoveFirstMultiset(tags[1..], v);
      }
    }
  }

  /** Removal splices out exactly the element at the first index of `v`. */
  lemma {:induction false} RemoveFirstAt(tags: seq<string>, v: string)
    requires v in tags
    ensures RemoveFirst(tags, v) == tags[..FirstIndex(tags, v)] + tags[FirstIndex(tags, v) + 1..]
  {
    if tags[0] != v {
      var tail := tags[1..];
      assert v in tail by {
        assert tags == [tags[0]] + tail;
      }
      RemoveFirstAt(tail, v);
      var k := FirstIndex(tail, v);
      assert FirstIndex(tags, v) == k + 1;
      assert RemoveFirst(tags, v) == [tags[0]] + (tail[..k] + tail[k + 1..]);
      assert tags[..k + 1] == [tags[0]] + tail[..k];
      assert tags[k + 2..] == tail[k + 1..];
    }
  }

  /** Removal keeps the invariant, and in a duplicate-free list it removes
      `v` altogether and keeps the other tags in their order. */
  lemma {:induction false} RemoveFirstKeepsValid(tags: seq<string>, limit: nat, v: string)
    requires Valid(tags, limit)
    ensures Valid(RemoveFirst(tags, v), limit)
    ensures v !in RemoveFirst(tags, v)
    ensures forall t :: t in RemoveFirst(tags, v) <==> t in tags && t != v
  {
    if v in tags {
      RemoveFirstAt(tags, v);
      var k := FirstIndex(tags, v);
      var r := RemoveFirst(tags, v);
      assert forall i :: 0 <= i < |r| ==> r[i] == (if i < k then tags[i] else tags[i + 1]);
      forall t ensures t in r <==> t in tags && t != v {
        if t in tags && t != v {
          var i :| 0 <= i < |tags| && tags[i] == t;
          assert r[if i < k then i else i - 1] == t;
        }
      }
    }
  }

  /** `addTag(v)`: the error is cleared, then the empty value is ignored, a
      present value reports "already exists", a full list reports "limit
      exceeded", and otherwise `v` is appended. */
  function AddStep(s: State, limit: nat, v: string): (r: State)
    ensures r.tags == s.tags || r.tags == s.tags + [v]
    ensures r.error != InputEmpty
    ensures r.error == NoError <==> v == "" || r.tags != s.tags
  {
    if v == "" then State(s.tags, NoError)
    else if v in s.tags then State(s.tags, AlreadyExists)
    else if |s.tags| >= limit then State(s.tags, LimitExceeded)
    else State(s.tags + [v], NoError)
  }

  /** `addTag` applied to each of `vs` in turn: the old tags stay first and
      in order, and after at least one call the error is never "input empty". */
  function AddAll(s: State, limit: nat, vs: seq<string>): (r: State)
    ensures |s.tags| <= |r.tags| && r.tags[..|s.tags|] == s.tags
    ensures vs != [] ==> r.error != InputEmpty
    decreases |vs|
  {
    if vs == [] then s else AddAll(AddStep(s, limit, vs[0]), limit, vs[1..])
  }

  /** `addTagEvent(raw)`: blank input reports "input empty" and changes no
      tag; any other input adds its pieces in order. */
  function Submitted(s: State, limit: nat, raw: string): (r: State)
    ensures r.error == InputEmpty <==> IsBlank(raw)
    ensures IsBlank(raw) ==> r.tags == s.tags
  {
    if Trim(raw) == "" then State(s.tags, InputEmpty) else AddAll(s, limit, Pieces(raw))
  }

  /** A submission is rejected as empty exactly when it is all white space. */
  lemma SubmittedBlank(s: State, limit: nat, raw: string)
    ensures IsBlank(raw) ==> Submitted(s, limit, raw) == State(s.tags, InputEmpty)
    ensures !IsBlank(raw) ==> Submitted(s, limit, raw) == AddAll(s, limit, Pieces(raw))
  {
  }

  /** `v` is appended exactly when it is non-empty, new and there is room;
      then the error is cleared. Otherwise the tags do not change. */
  lemma AddStepAccepts(s: State, limit: nat, v: string)
    ensures AddStep(s, limit, v).tags != s.tags <==> v != "" && v !in s.tags && |s.tags| < limit
    ensures v != "" && v !in s.tags && |s.tags| < limit ==> AddStep(s, limit, v) == State(s.tags + [v], NoError)
  {
  }

  /** The three rejections and the error each one leaves. The duplicate test
      comes first, so a duplicate in a full list reports "already exists". */
  lemma AddStepRejects(s: State, limit: nat, v: string)
    ensures v == "" ==> AddStep(s, limit, v) == State(s.tags, NoError)
    ensures v != "" && v in s.tags ==> AddStep(s, limit, v) == State(s.tags, AlreadyExists)
    ensures v != "" && v !in s.tags && |s.tags| >= limit ==> AddStep(s, limit, v) == State(s.tags, LimitExceeded)
  {
  }

  /** The outcome of `addTag` does not depend on the error left by earlier calls. */
  lemma AddStepIgnoresPriorError(tags: seq<string>, e1: Message, e2: Message, limit: nat, v: string)
    ensures AddStep(State(tags, e1), limit, v) == AddStep(State(tags, e2), limit, v)
  {
  }

  lemma AddStepKeepsValid(s: State, limit: nat, v: string)
    requires Valid(s.tags, limit)
    ensures Valid(AddStep(s, limit, v).tags, limit)
  {
  }

  /** Adding the same non-empty tag twice stores it once, and the second call
      reports "already exists" unless the first was refused for lack of room. */
  lemma AddStepTwice(s: State, limit: nat, v: string)
    requires v != ""
    requires v in s.tags || |s.tags| < limit
    ensures v in AddStep(AddStep(s, limit, v), limit, v).tags
    ensures AddStep(AddStep(s, limit, v), limit, v) == State(AddStep(s, limit, v).tags, AlreadyExists)
  {
  }

  /** Removing a tag does not bar it: adding it again restores it, at the end. */
  lemma RemoveThenAdd(s: State, limit: nat, v: string)
    requires Valid(s.tags, limit) && v != ""
    ensures AddStep(State(RemoveFirst(s.tags, v), s.error), limit, v).tags
         == (if v in s.tags || |s.tags| < limit then RemoveFirst(s.tags, v) + [v] else s.tags)
  {
    RemoveFirstKeepsValid(s.tags, limit, v);
  }

  /** Folding one more value is one more `addTag`. */
  lemma {:induction false} AddAllSnoc(s: State, limit: nat, vs: seq<string>, v: string)
    ensures AddAll(s, limit, vs + [v]) == AddStep(AddAll(s, limit, vs), limit, v)
    decreases |vs|
  {
    if vs != [] {
      AddAllSnoc(AddStep(s, limit, vs[0]), limit, vs[1..], v);
      assert (vs + [v])[1..] == vs[1..] + [v];
    }
  }

  /** Folding `addTag` keeps the invariant. */
  lemma {:induction false} AddAllKeepsValid(s: State, limit: nat, vs: seq<string>)
    requires Valid(s.tags, limit)
    ensures Valid(AddAll(s, limit, vs).tags, limit)
    decreases |vs|
  {
    if vs != [] {
      AddStepKeepsValid(s, limit, vs[0]);
      AddAllKeepsValid(AddStep(s, limit, vs[0]), limit, vs[1..]);
    }
  }

  /** Folding `addTag` only appends: the old tags stay first and in order,
      and every new tag is one of `vs`, at most one per element. */
  lemma {:induction false} AddAllAppends(s: State, limit: nat, vs: seq<string>)
    ensures var r := AddAll(s, limit, vs).tags;
      |s.tags| <= |r| <= |s.tags| + |vs| && r[..|s.tags|] == s.tags
      && forall i :: |s.tags| <= i < |r| ==> r[i] in vs
    decreases |vs|
  {
    if vs != [] {
      var s1 := AddStep(s, limit, vs[0]);
      AddAllAppends(s1, limit, vs[1..]);
      var r := AddAll(s, limit, vs).tags;
      assert r[..|s1.tags|] == s1.tags;
      assert r[..|s.tags|] == s1.tags[..|s.tags|];
      forall i | |s.tags| <= i < |r| ensures r[i] in vs {
        if i < |s1.tags| {
          assert r[i] == s1.tags[i] == vs[0];
        } else {
          assert r[i] in vs[1..];
        }
      }
    }
  }

  /** After a non-empty fold the error is that of the last `addTag` alone:
      earlier pieces and earlier errors leave no trace in it. */
  lemma AddAllErrorIsLast(s: State, limit: nat, vs: seq<string>)
    requires vs != []
    ensures var before := AddAll(s, limit, vs[..|vs| - 1]);
      AddAll(s, limit, vs).error == AddStep(before, limit, vs[|vs| - 1]).error
  {
    assert vs == vs[..|vs| - 1] + [vs[|vs| - 1]];
    AddAllSnoc(s, limit, vs[..|vs| - 1], vs[|vs| - 1]);
  }

  /** The initial error does not matter to a non-empty fold. */
  lemma {:induction false} AddAllIgnoresPriorError(tags: seq<string>, e1: Message, e2: Message, limit: nat, vs: seq<string>)
    requires vs != []
    ensures AddAll(State(tags, e1), limit, vs) == AddAll(State(tags, e2), limit, vs)
  {
  }

  /** limit 5, add "a", "b", "c": the tags are exactly those, with no error. */
  lemma ScenarioInitialTags()
    ensures AddAll(State([], NoError), 5, ["a", "b", "c"]) == State(["a", "b", "c"], NoError)
  {
  }

  /** Removing "c" from five tags keeps the other four in order. */
  lemma ScenarioRemove()
    ensures RemoveFirst(["a", "b", "c", "d", "e"], "c") == ["a", "b", "d", "e"]
  {
    assert RemoveFirst(["c", "d", "e"], "c") == ["d", "e"];
  }

  /** Limit 5, add "x", "y", "z": the pieces of `"x；y,z"` are stored in order. */
  lemma ScenarioSubmitXYZ()
    ensures AddAll(State([], NoError), 5, ["x", "y", "z"]) == State(["x", "y", "z"], NoError)
  {
  }

  /** A full list refuses a new tag and keeps its length. */
  lemma ScenarioLimit()
    ensures AddStep(State(["a", "b", "c", "d", "e"], NoError), 5, "f")
         == State(["a", "b", "c", "d", "e"], LimitExceeded)
  {
  }

  /** No sequence of additions takes a valid list past `limit`, and a full
      list refuses every further value: its tags stay as they are. */
  lemma {:induction false} AddAllNeverExceeds(s: State, limit: nat, vs: seq<string>)
    requires Valid(s.tags, limit)
    ensures |AddAll(s, limit, vs).tags| <= limit
    ensures |s.tags| == limit ==> AddAll(s, limit, vs).tags == s.tags
    decreases |vs|
  {
    AddAllKeepsValid(s, limit, vs);
    if vs != [] && |s.tags| == limit {
      AddAllNeverExceeds(AddStep(s, limit, vs[0]), limit, vs[1..]);
    }
  }

  /** The limit-plus-first distinct tag is refused with "limit exceeded". */
  lemma FullListRefuses(s: State, limit: nat, v: string)
    requires Valid(s.tags, limit) && |s.tags| == limit
    requires v != "" && v !in s.tags
    ensures AddStep(s, limit, v) == State(s.tags, LimitExceeded)
  {
  }

  /** Limit 5, add "a" then " ": both are stored, with no error. */
  lemma AddAllBlankPiece()
    ensures AddAll(State([], NoError), 5, ["a", " "]) == State(["a", " "], NoError)
  {
  }

  /** A blank piece such as the `" "` in `"a; "` is not trimmed and is stored. */
  lemma BlankPieceIsStored()
    ensures Submitted(State([], NoError), 5, "a; ") == State(["a", " "], NoError)
  {
    var raw := "a; ";
    assert !IsBlank(raw) by {
      assert !IsWhitespace(raw[0]);
    }
    SubmittedBlank(State([], NoError), 5, raw);
    PiecesBlankExample();
    AddAllBlankPiece();
  }
}
