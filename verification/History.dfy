/** Reading a value off a list of events: it is what the last event that says anything said. */
module History {
  import opened Options

  /** `value` is what the last event that says anything said, or `before` when none did. */
  ghost predicate LastWord<E(!new), T(!new)>(es: seq<E>, says: E -> Option<T>, before: T, value: T) {
    || (value == before && forall j :: 0 <= j < |es| ==> says(es[j]).None?)
    || exists k :: 0 <= k < |es| && says(es[k]) == Some(value) && forall j :: k < j < |es| ==> says(es[j]).None?
  }

  lemma NoWord<E(!new), T(!new)>(says: E -> Option<T>, before: T)
    ensures LastWord([], says, before, before)
  {
  }

  lemma WordKept<E(!new), T(!new)>(es: seq<E>, e: E, says: E -> Option<T>, before: T, value: T)
    requires LastWord(es, says, before, value)
    ensures LastWord(es + [e], says, before, if says(e).Some? then says(e).value else value)
  {
    var more := es + [e];
    assert more[|es|] == e;
    if says(e).None? && exists k :: 0 <= k < |es| && says(es[k]) == Some(value)
                               && forall j :: k < j < |es| ==> says(es[j]).None? {
      var k :| 0 <= k < |es| && says(es[k]) == Some(value) && forall j :: k < j < |es| ==> says(es[j]).None?;
      assert says(more[k]) == Some(value);
    }
  }

  /** There is only one last word. */
  lemma OneLastWord<E(!new), T(!new)>(es: seq<E>, says: E -> Option<T>, before: T, a: T, b: T)
    requires LastWord(es, says, before, a) && LastWord(es, says, before, b)
    ensures a == b
  {
  }
}
