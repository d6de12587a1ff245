/**
 * The capability enum of providers/base.py and what the rest of the core
 * reads of a provider: its name, whether it is authenticated, and its
 * capability set (a provider whose capability property raises has an
 * error there instead).
 */
module Providers {
  import opened Json
  import opened Errors

  datatype Capability =
    | SearchEvents | SearchGroups | ListGroups | CreateEvent | EditEvent | DeleteEvent
    | PublishEvent | AnnounceEvent | ManageRsvps | CreateVenue | NetworkSearch | UserProfile

  /** The enum member's `.value`. */
  function CapabilityValue(c: Capability): string {
    match c
    case SearchEvents => "search_events"
    case SearchGroups => "search_groups"
    case ListGroups => "list_groups"
    case CreateEvent => "create_event"
    case EditEvent => "edit_event"
    case DeleteEvent => "delete_event"
    case PublishEvent => "publish_event"
    case AnnounceEvent => "announce_event"
    case ManageRsvps => "manage_rsvps"
    case CreateVenue => "create_venue"
    case NetworkSearch => "network_search"
    case UserProfile => "user_profile"
  }

  /** A provider as its callers observe it. */
  datatype ProviderView = ProviderView(name: string, authenticated: bool, capabilities: Result<set<Capability>>)

  /** Python's `<` on `str`: code-point-wise lexicographic order. */
  predicate StrLess(a: string, b: string) {
    if a == [] then b != []
    else if b == [] then false
    else if a[0] != b[0] then a[0] < b[0]
    else StrLess(a[1..], b[1..])
  }

  /** Pairwise strictly ascending, hence sorted and free of duplicates. */
  predicate StrictlyAscending(xs: seq<string>) {
    forall i, j :: 0 <= i < j < |xs| ==> StrLess(xs[i], xs[j])
  }

  /** The capabilities of `order` have strictly ascending values. */
  predicate OrderedByValue(order: seq<Capability>) {
    forall i, j :: 0 <= i < j < |order| ==> StrLess(CapabilityValue(order[i]), CapabilityValue(order[j]))
  }

  /** Every capability, listed in ascending order of value. */
  const ByValue: seq<Capability> := [
    AnnounceEvent, CreateEvent, CreateVenue, DeleteEvent, EditEvent, ListGroups,
    ManageRsvps, NetworkSearch, PublishEvent, SearchEvents, SearchGroups, UserProfile]

  /** The values of the members of `order` that belong to `cs`, in the order of `order`. */
  function ValuesIn(order: seq<Capability>, cs: set<Capability>): (r: seq<string>)
    ensures forall x :: x in r ==> exists j :: 0 <= j < |order| && order[j] in cs && CapabilityValue(order[j]) == x
    ensures forall c :: c in cs && c in order ==> CapabilityValue(c) in r
  {
    if order == [] then []
    else (if order[0] in cs then [CapabilityValue(order[0])] else []) + ValuesIn(order[1..], cs)
  }

  /** `sorted(c.value for c in capabilities)`. */
  function SortedValues(cs: set<Capability>): seq<string> {
    ValuesIn(ByValue, cs)
  }

  // -----------------------------------------------------------------------
  // String order
  // -----------------------------------------------------------------------

  lemma {:induction false} StrLessIrreflexive(a: string)
    ensures !StrLess(a, a)
  {
    if a != [] {
      StrLessIrreflexive(a[1..]);
    }
  }

  lemma {:induction false} StrLessTransitive(a: string, b: string, c: string)
    requires StrLess(a, b) && StrLess(b, c)
    ensures StrLess(a, c)
  {
    if a != [] && a[0] == b[0] && b[0] == c[0] {
      StrLessTransitive(a[1..], b[1..], c[1..]);
    }
  }

  /** Two strings that first differ at `k` are ordered by their characters there. */
  lemma {:induction false} StrLessAt(a: string, b: string, k: nat)
    requires k < |a| && k < |b| && a[k] < b[k]
    requires forall i :: 0 <= i < k ==> a[i] == b[i]
    ensures StrLess(a, b)
  {
    if k > 0 {
      assert forall i :: 0 <= i < k - 1 ==> a[1..][i] == b[1..][i];
      StrLessAt(a[1..], b[1..], k - 1);
    }
  }

  /** The values in `ByValue` order: all neighbours differ in their first character but two, which differ at index 7. */
  const ValueOrder: seq<string> := [
    "announce_event", "create_event", "create_venue", "delete_event", "edit_event", "list_groups",
    "manage_rsvps", "network_search", "publish_event", "search_events", "search_groups", "user_profile"]

  lemma ValueOrderNeighbours()
    ensures forall i :: 0 <= i < |ValueOrder| - 1 ==> StrLess(ValueOrder[i], ValueOrder[i + 1])
  {
    forall i | 0 <= i < |ValueOrder| - 1 ensures StrLess(ValueOrder[i], ValueOrder[i + 1]) {
      StrLessAt(ValueOrder[i], ValueOrder[i + 1], if i == 1 || i == 9 then 7 else 0);
    }
  }

  /** `ValueOrder` lists the values of `ByValue`, position by position. */
  lemma ByValueValues()
    ensures |ValueOrder| == |ByValue|
    ensures forall i :: 0 <= i < |ByValue| ==> CapabilityValue(ByValue[i]) == ValueOrder[i]
  {
  }

  lemma ByValueNeighbours()
    ensures forall i :: 0 <= i < |ByValue| - 1 ==> StrLess(CapabilityValue(ByValue[i]), CapabilityValue(ByValue[i + 1]))
  {
    ValueOrderNeighbours();
    ByValueValues();
  }

  /** When every capability of `order` is in the set, the values are those of `order`, position by position. */
  lemma {:induction false} ValuesInAll(order: seq<Capability>, cs: set<Capability>)
    requires forall i :: 0 <= i < |order| ==> order[i] in cs
    ensures |ValuesIn(order, cs)| == |order|
    ensures forall i :: 0 <= i < |order| ==> ValuesIn(order, cs)[i] == CapabilityValue(order[i])
  {
    if order != [] {
      ValuesInAll(order[1..], cs);
      assert forall i :: 1 <= i < |order| ==> order[1..][i - 1] == order[i];
    }
  }

  lemma {:induction false} NeighboursOrdered(order: seq<Capability>)
    requires forall i :: 0 <= i < |order| - 1 ==> StrLess(CapabilityValue(order[i]), CapabilityValue(order[i + 1]))
    ensures OrderedByValue(order)
  {
    if |order| > 1 {
      NeighboursOrdered(order[1..]);
      forall j | 1 <= j < |order|
        ensures StrLess(CapabilityValue(order[0]), CapabilityValue(order[j]))
      {
        if j > 1 {
          assert order[j] == order[1..][j - 1];
          StrLessTransitive(CapabilityValue(order[0]), CapabilityValue(order[1]), CapabilityValue(order[j]));
        }
      }
      forall i, j | 0 <= i < j < |order|
        ensures StrLess(CapabilityValue(order[i]), CapabilityValue(order[j]))
      {
        if i > 0 {
          assert order[i] == order[1..][i - 1] && order[j] == order[1..][j - 1];
        }
      }
    }
  }

  lemma OrderedTail(order: seq<Capability>)
    requires order != [] && OrderedByValue(order)
    ensures OrderedByValue(order[1..])
  {
    forall i, j | 0 <= i < j < |order[1..]|
      ensures StrLess(CapabilityValue(order[1..][i]), CapabilityValue(order[1..][j]))
    {
      assert order[1..][i] == order[i + 1] && order[1..][j] == order[j + 1];
    }
  }

  /** The first capability's value is below every value contributed by the rest. */
  lemma HeadBelowRest(order: seq<Capability>, cs: set<Capability>)
    requires order != [] && OrderedByValue(order)
    ensures forall x :: x in ValuesIn(order[1..], cs) ==> StrLess(CapabilityValue(order[0]), x)
  {
    forall x | x in ValuesIn(order[1..], cs) ensures StrLess(CapabilityValue(order[0]), x) {
      var j :| 0 <= j < |order[1..]| && order[1..][j] in cs && CapabilityValue(order[1..][j]) == x;
      assert order[1..][j] == order[j + 1];
    }
  }

  lemma {:induction false} ValuesInAscending(order: seq<Capability>, cs: set<Capability>)
    requires OrderedByValue(order)
    ensures StrictlyAscending(ValuesIn(order, cs))
  {
    if order != [] {
      var rest := ValuesIn(order[1..], cs);
      OrderedTail(order);
      ValuesInAscending(order[1..], cs);
      if order[0] in cs {
        HeadBelowRest(order, cs);
        var r := [CapabilityValue(order[0])] + rest;
        forall i, j | 0 <= i < j < |r| ensures StrLess(r[i], r[j]) {
          assert r[j] == rest[j - 1] && r[j] in rest;
          if i > 0 {
            assert r[i] == rest[i - 1];
          }
        }
      }
    }
  }

  // -----------------------------------------------------------------------
  // Properties
  // -----------------------------------------------------------------------

  lemma EveryCapabilityListed(c: Capability)
    ensures c in ByValue
  {
  }

  /** The values are pairwise distinct. */
  lemma CapabilityValueInjective(c: Capability, d: Capability)
    ensures CapabilityValue(c) == CapabilityValue(d) ==> c == d
  {
  }

  /**
   * What `list_platforms` reports as capabilities: exactly the values of
   * the set, in ascending string order, each once.
   */
  lemma SortedValuesSpec(cs: set<Capability>)
    ensures StrictlyAscending(SortedValues(cs))
    ensures forall i, j :: 0 <= i < j < |SortedValues(cs)| ==> SortedValues(cs)[i] != SortedValues(cs)[j]
    ensures forall x :: x in SortedValues(cs) <==> exists c :: c in cs && CapabilityValue(c) == x
  {
    ByValueNeighbours();
    NeighboursOrdered(ByValue);
    ValuesInAscending(ByValue, cs);
    var r := SortedValues(cs);
    forall i, j | 0 <= i < j < |r| ensures r[i] != r[j] {
      if r[i] == r[j] {
        StrLessIrreflexive(r[i]);
      }
    }
    forall c | c in cs ensures CapabilityValue(c) in r {
      EveryCapabilityListed(c);
    }
  }
}
