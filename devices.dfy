/**
 * The `MonitoringDevice` record and the list edits the app performs on a
 * list of them: `add` appends, `remove(element)` drops the first element
 * that is structurally equal (Kotlin data-class equality on id and name).
 * Duplicates are allowed.
 */
module Devices {

  /** A device as entered by the user; the id is kept as the raw string. */
  datatype MonitoringDevice = MonitoringDevice(id: string, name: string)

  /** Position of the first element equal to `d`. */
  function FirstIndex(s: seq<MonitoringDevice>, d: MonitoringDevice): (i: nat)
    requires d in s
    ensures i < |s| && s[i] == d
    ensures forall j :: 0 <= j < i ==> s[j] != d
  {
    if s[0] == d then 0 else 1 + FirstIndex(s[1..], d)
  }

  /** `MutableList.remove(element)`: drop the first element equal to `d`, if there is one. */
  function RemoveFirst(s: seq<MonitoringDevice>, d: MonitoringDevice): (r: seq<MonitoringDevice>)
    ensures d !in s ==> r == s
    ensures d in s ==> |r| == |s| - 1
  {
    if s == [] then []
    else if s[0] == d then s[1..]
    else [s[0]] + RemoveFirst(s[1..], d)
  }

  /** Deleting takes exactly one copy of `d` out of the list's contents, when there is one. */
  lemma {:induction false} RemoveFirstContents(s: seq<MonitoringDevice>, d: MonitoringDevice)
    ensures multiset(RemoveFirst(s, d)) == multiset(s) - multiset{d}
  {
    if s != [] {
      assert s == [s[0]] + s[1..];
      if s[0] != d {
        RemoveFirstContents(s[1..], d);
      }
    }
  }

  /** With `k` the first position holding `d`, removing cuts out position `k` and keeps the rest in order. */
  lemma {:induction false} RemoveFirstAt(s: seq<MonitoringDevice>, d: MonitoringDevice, k: nat)
    requires k < |s| && s[k] == d
    requires forall j :: 0 <= j < k ==> s[j] != d
    ensures RemoveFirst(s, d) == s[..k] + s[k + 1..]
  {
    if k > 0 {
      var tail := s[1..];
      assert s[0] != d;
      RemoveFirstAt(tail, d, k - 1);
      assert [s[0]] + tail[..k - 1] == s[..k];
      assert tail[k..] == s[k + 1..];
    }
  }

  /** Removing cuts out exactly the first occurrence: what precedes and what follows it stay in order. */
  lemma RemoveFirstSplices(s: seq<MonitoringDevice>, d: MonitoringDevice)
    requires d in s
    ensures RemoveFirst(s, d) == s[..FirstIndex(s, d)] + s[FirstIndex(s, d) + 1..]
  {
    RemoveFirstAt(s, d, FirstIndex(s, d));
  }

  /** Deleting a device leaves every other duplicate of it in place: exactly one copy goes. */
  lemma RemoveFirstDropsOneCopy(s: seq<MonitoringDevice>, d: MonitoringDevice)
    ensures multiset(RemoveFirst(s, d))[d] == if d in s then multiset(s)[d] - 1 else 0
  {
    RemoveFirstContents(s, d);
  }

  /** Adding a device that was not yet listed and then deleting it restores the list exactly. */
  lemma {:induction false} AddThenDeleteRestores(s: seq<MonitoringDevice>, d: MonitoringDevice)
    requires d !in s
    ensures RemoveFirst(s + [d], d) == s
  {
    var t := s + [d];
    assert t[|s|] == d;
    RemoveFirstSplices(t, d);
    assert FirstIndex(t, d) == |s|;
    assert t[..|s|] == s;
  }

  /** Add-then-delete of the same device always keeps the list's contents, duplicates included. */
  lemma AddThenDeleteSameContents(s: seq<MonitoringDevice>, d: MonitoringDevice)
    ensures multiset(RemoveFirst(s + [d], d)) == multiset(s)
  {
    RemoveFirstContents(s + [d], d);
    assert multiset(s + [d]) == multiset(s) + multiset{d};
  }

  /** When a copy was already listed, add-then-delete deletes that earlier copy and the new one stays at the end. */
  lemma {:induction false} AddThenDeleteMovesCopy(s: seq<MonitoringDevice>, d: MonitoringDevice)
    requires d in s
    ensures RemoveFirst(s + [d], d) == RemoveFirst(s, d) + [d]
  {
    var t := s + [d];
    var k := FirstIndex(s, d);
    assert t[k] == d;
    assert forall j :: 0 <= j < k ==> t[j] != d;
    RemoveFirstAt(t, d, k);
    RemoveFirstAt(s, d, k);
    assert t[..k] == s[..k];
    assert t[k + 1..] == s[k + 1..] + [d];
  }
}
