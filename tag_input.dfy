/**
 * The `TagInput` widget object: its tag list and error element, updated in
 * place by the methods of its prototype.
 */
module TagInputWidget {
  import opened Tokens
  import opened TagList

  datatype Option<T> = None | Some(value: T)

  /** `indexOfValue`: the first position holding exactly `val`, or -1. */
  method IndexOfValue(tagList: seq<string>, val: string) returns (i: int)
    ensures i == -1 <==> val !in tagList
    ensures i != -1 ==> 0 <= i < |tagList| && tagList[i] == val
    ensures i != -1 ==> forall j :: 0 <= j < i ==> tagList[j] != val
    ensures val in tagList ==> i == FirstIndex(tagList, val)
  {
    for k := 0 to |tagList|
      invariant forall j :: 0 <= j < k ==> tagList[j] != val
    {
      if tagList[k] == val {
        return k;
      }
    }
    return -1;
  }

  /** `removeValue`: splices out the first occurrence of `val`, if any. The
      source finds it with the built-in `indexOf`, which compares the same
      way as `indexOfValue`. */
  method RemoveValue(tagList: seq<string>, val: string) returns (r: seq<string>)
    ensures r == RemoveFirst(tagList, val)
    ensures val in tagList ==> |r| == |tagList| - 1
    ensures val !in tagList ==> r == tagList
  {
    var index := IndexOfValue(tagList, val);
    if index > -1 {
      RemoveFirstAt(tagList, val);
      r := tagList[..index] + tagList[index + 1..];
    } else {
      r := tagList;
    }
  }

  class TagInput {
    /** The tags, in the order they were added. */
    var tagList: seq<string>
    /** `settings.limit`, the largest number of tags. */
    const limit: nat
    /** The message last written into `settings.$error`. */
    var lastError: Message
    /** Whether the submit handlers are bound (`able`) or unbound (`disable`). */
    var enabled: bool

    /** The abstract state the specification functions of module TagList act on. */
    function Snapshot(): State
      reads this
    {
      State(tagList, lastError)
    }

    ghost predicate Valid()
      reads this
    {
      TagList.Valid(tagList, limit)
    }

    /** `init`: an empty list with the configured limit, handlers bound. */
    constructor (limit: nat)
      ensures tagList == [] && this.limit == limit && lastError == NoError && enabled
      ensures Valid()
    {
      tagList := [];
      this.limit := limit;
      lastError := NoError;
      enabled := true;
    }

    /** `addTag` */
    method AddTag(value: string)
      modifies this
      ensures Snapshot() == AddStep(old(Snapshot()), limit, value)
      ensures enabled == old(enabled)
      ensures old(Valid()) ==> Valid()
    {
      lastError := NoError;
      if value != "" {
        var index := IndexOfValue(tagList, value);
        if index == -1 {
          if |tagList| >= limit {
            lastError := LimitExceeded;
          } else {
            tagList := tagList + [value];
          }
        } else {
          lastError := AlreadyExists;
        }
      }
    }

    /** `addTagEvent`: a blank input reports "input empty"; any other input is
        normalised, split on `,` and each piece handed to `addTag` in order. */
    method AddTagEvent(value: string)
      modifies this
      ensures Snapshot() == Submitted(old(Snapshot()), limit, value)
      ensures enabled == old(enabled)
      ensures old(Valid()) ==> Valid()
    {
      if Trim(value) != "" {
        var tempValue := Split(Normalize(value));
        for i := 0 to |tempValue|
          invariant Snapshot() == AddAll(old(Snapshot()), limit, tempValue[..i])
          invariant enabled == old(enabled)
          invariant old(Valid()) ==> Valid()
        {
          AddAllSnoc(old(Snapshot()), limit, tempValue[..i], tempValue[i]);
          assert tempValue[..i + 1] == tempValue[..i] + [tempValue[i]];
          AddTag(tempValue[i]);
        }
        assert tempValue[..|tempValue|] == tempValue;
      } else {
        lastError := InputEmpty;
      }
    }

    /** The Enter-key and submit-button handlers: they call `addTagEvent`
        only while bound, that is, while the widget is enabled. */
    method Submit(value: string)
      modifies this
      ensures Snapshot() == if old(enabled) then Submitted(old(Snapshot()), limit, value) else old(Snapshot())
      ensures enabled == old(enabled)
      ensures old(Valid()) ==> Valid()
    {
      if enabled {
        AddTagEvent(value);
      }
    }

    /** `removeTag`: removes the first occurrence; the error is untouched. */
    method RemoveTag(value: string)
      modifies this
      ensures tagList == RemoveFirst(old(tagList), value)
      ensures lastError == old(lastError) && enabled == old(enabled)
      ensures old(Valid()) ==> Valid() && value !in tagList
    {
      if Valid() {
        RemoveFirstKeepsValid(tagList, limit, value);
      }
      tagList := RemoveValue(tagList, value);
    }

    /** `val`: without an argument, returns the tags and changes nothing; with
        a list, hands each element to `addTag` in order, keeping the tags
        already there, and returns nothing. */
    method Val(arg: Option<seq<string>>) returns (r: Option<seq<string>>)
      modifies this
      ensures arg.None? ==> r == Some(old(tagList)) && Snapshot() == old(Snapshot())
      ensures arg.Some? ==> r.None? && Snapshot() == AddAll(old(Snapshot()), limit, arg.value)
      ensures enabled == old(enabled)
      ensures old(Valid()) ==> Valid()
    {
      if arg.None? {
        return Some(tagList);
      }
      var ts := arg.value;
      for i := 0 to |ts|
        invariant Snapshot() == AddAll(old(Snapshot()), limit, ts[..i])
        invariant enabled == old(enabled)
        invariant old(Valid()) ==> Valid()
      {
        AddAllSnoc(old(Snapshot()), limit, ts[..i], ts[i]);
        assert ts[..i + 1] == ts[..i] + [ts[i]];
        AddTag(ts[i]);
      }
      assert ts[..|ts|] == ts;
      return None;
    }

    /** `disable`: unbinds the submit handlers. */
    method Disable()
      modifies this
      ensures !enabled && Snapshot() == old(Snapshot())
    {
      enabled := false;
    }

    /** `able`: binds the submit handlers again. */
    method Able()
      modifies this
      ensures enabled && Snapshot() == old(Snapshot())
    {
      enabled := true;
    }

    /** `clean`: no tags and no error, whatever came before. */
    method Clean()
      modifies this
      ensures tagList == [] && lastError == NoError && enabled == old(enabled)
      ensures Valid()
    {
      tagList := [];
      lastError := NoError;
    }
  }

  /** The "inner array" unit tests: in ["a", "b", "c"], "a" is at index 0,
      and removing it leaves ["b", "c"]. */
  method InnerArrayScenario() returns (index: int, remaining: seq<string>)
    ensures index == 0 && remaining == ["b", "c"]
  {
    var t := new TagInput(5);
    t.tagList := ["a", "b", "c"];
    index := IndexOfValue(t.tagList, "a");
    t.tagList := RemoveValue(t.tagList, "a");
    remaining := t.tagList;
  }

  /** The first "tags" unit tests at limit 5, in the order they run: `val`
      sets ["a", "b", "c"], `val()` returns them, "d" is added, and "b" is
      refused as a duplicate. */
  method TagsScenario() returns (initial: Option<seq<string>>, tags: seq<string>, error: Message)
    ensures initial == Some(["a", "b", "c"])
    ensures tags == ["a", "b", "c", "d"] && error == AlreadyExists
  {
    var t := new TagInput(5);
    var r := t.Val(Some(["a", "b", "c"]));
    ScenarioInitialTags();
    initial := t.Val(None);
    t.AddTag("d");
    t.AddTag("b");
    tags, error := t.tagList, t.lastError;
  }

  /** The remaining "tags" unit tests: a full list refuses "f" with "limit
      exceeded", removing "c" shortens it by one, and `clean` empties it. */
  method LimitScenario() returns (full: State, removed: seq<string>, cleaned: State)
    ensures full == State(["a", "b", "c", "d", "e"], LimitExceeded)
    ensures removed == ["a", "b", "d", "e"]
    ensures cleaned == State([], NoError)
  {
    var t := new TagInput(5);
    t.tagList := ["a", "b", "c", "d", "e"];
    t.AddTag("f");
    ScenarioLimit();
    full := t.Snapshot();
    ScenarioRemove();
    t.RemoveTag("c");
    removed := t.tagList;
    t.Clean();
    cleaned := t.Snapshot();
  }

  /** The enable/disable gate: a submission while disabled changes nothing;
      after `able`, `"x；y,z"` adds "x", "y" and "z" in order. */
  method GateScenario() returns (whileDisabled: seq<string>, afterAble: seq<string>)
    ensures whileDisabled == [] && afterAble == ["x", "y", "z"]
  {
    var t := new TagInput(5);
    t.Disable();
    t.Submit("x");
    whileDisabled := t.tagList;
    t.Able();
    var raw := "x\U{FF1B}y,z";
    assert !IsBlank(raw) by {
      assert !IsWhitespace(raw[0]);
    }
    SubmittedBlank(State([], NoError), 5, raw);
    PiecesExample();
    ScenarioSubmitXYZ();
    t.Submit(raw);
    afterAble := t.tagList;
  }
}
