/** The notifications page of the second copy of the application
    (physics-learning-platform/src/components/NotificationsPage.tsx): every
    notification has a dismiss button, and one button clears them all. Both
    compute a new list for the parent's `setNotifications`. */
module NotificationsPage {
  import opened AppTypes

  /** `notifications.filter((_, i) => i !== index)`, walking the list with the
      index counted down from the front. */
  function Dismissed(ns: seq<Notification>, index: int): (r: seq<Notification>)
    ensures |r| <= |ns|
  {
    if ns == [] then []
    else (if index == 0 then [] else [ns[0]]) + Dismissed(ns[1..], index - 1)
  }

  /** An index the filter never meets keeps every entry. */
  lemma {:induction false} DismissedMissing(ns: seq<Notification>, index: int)
    requires !(0 <= index < |ns|)
    ensures Dismissed(ns, index) == ns
  {
    if ns != [] {
      DismissedMissing(ns[1..], index - 1);
    }
  }

  /** Inside the list the filter drops the entry at `index` and keeps the rest
      in order. */
  lemma {:induction false} DismissedInRange(ns: seq<Notification>, index: int)
    requires 0 <= index < |ns|
    ensures Dismissed(ns, index) == ns[..index] + ns[index + 1..]
  {
    var tail := ns[1..];
    if index == 0 {
      DismissedMissing(tail, -1);
      assert Dismissed(ns, index) == [] + tail;
    } else {
      DismissedInRange(tail, index - 1);
      var before, after := ns[1..index], ns[index + 1..];
      assert tail[..index - 1] == before && tail[index..] == after;
      assert Dismissed(ns, index) == [ns[0]] + (before + after);
      assert ns[..index] == [ns[0]] + before;
    }
  }

  /** Dismissing entry `index` removes exactly that entry and keeps the order of
      the others, so the list is one shorter; any other index changes nothing. */
  lemma {:induction false} DismissedSpec(ns: seq<Notification>, index: int)
    ensures 0 <= index < |ns| ==> Dismissed(ns, index) == ns[..index] + ns[index + 1..]
    ensures 0 <= index < |ns| ==> |Dismissed(ns, index)| == |ns| - 1
    ensures 0 <= index < |ns| ==> multiset(Dismissed(ns, index)) + multiset{ns[index]} == multiset(ns)
    ensures !(0 <= index < |ns|) ==> Dismissed(ns, index) == ns
  {
    if 0 <= index < |ns| {
      DismissedInRange(ns, index);
      var before, after := ns[..index], ns[index + 1..];
      assert ns == before + [ns[index]] + after;
      assert multiset(ns) == multiset(before) + multiset{ns[index]} + multiset(after);
    } else {
      DismissedMissing(ns, index);
    }
  }

  /** "Clear All Notifications". */
  function Cleared(ns: seq<Notification>): (r: seq<Notification>)
    ensures |r| == 0
  {
    []
  }

  /** Dismissing the first entry as often as there are entries ends where
      "Clear All Notifications" does. */
  function DismissFirst(ns: seq<Notification>, times: nat): seq<Notification>
    decreases times
  {
    if times == 0 then ns else DismissFirst(Dismissed(ns, 0), times - 1)
  }

  lemma {:induction false} DismissEachClears(ns: seq<Notification>)
    ensures DismissFirst(ns, |ns|) == Cleared(ns)
  {
    if ns != [] {
      DismissedSpec(ns, 0);
      DismissEachClears(Dismissed(ns, 0));
    }
  }
}
