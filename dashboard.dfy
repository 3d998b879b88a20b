/** The request list of the dashboard (`src/app/dashboard/page.tsx`): the search/status
    filter over the services and the list of distinct statuses offered in the status filter.
    Lower-casing is modelled for ASCII letters only. */
module Dashboard {
  import opened Types
  import Seqs

  /** The status-filter value that disables status filtering. */
  const AllStatuses: string := "all"

  function LowerChar(c: char): char {
    if 'A' <= c <= 'Z' then (c as int + 32) as char else c
  }

  /** `s.toLowerCase()`, for ASCII. */
  function ToLower(s: string): (r: string)
    ensures |r| == |s|
    ensures forall i :: 0 <= i < |s| ==> r[i] == LowerChar(s[i])
  {
    if |s| == 0 then "" else [LowerChar(s[0])] + ToLower(s[1..])
  }

  /** `t` occurs in `s` starting at position `i`. */
  predicate OccursAt(t: string, s: string, i: int) {
    0 <= i <= |s| - |t| && s[i..i + |t|] == t
  }

  /** `t` occurs in `s` as a contiguous block. */
  ghost predicate IsSubstring(t: string, s: string) {
    exists i :: OccursAt(t, s, i)
  }

  /** `s.includes(t)`, trying each start position from the left. */
  function Includes(s: string, t: string): (r: bool)
    ensures r <==> IsSubstring(t, s)
    decreases |s|
  {
    if |t| > |s| then false
    else if s[..|t|] == t then assert OccursAt(t, s, 0); true
    else if |s| == 0 then false
    else
      var r := Includes(s[1..], t);
      assert IsSubstring(t, s[1..]) ==> IsSubstring(t, s) by {
        if IsSubstring(t, s[1..]) {
          var i :| OccursAt(t, s[1..], i);
          assert s[i + 1..i + 1 + |t|] == s[1..][i..i + |t|];
          assert OccursAt(t, s, i + 1);
        }
      }
      assert IsSubstring(t, s) ==> IsSubstring(t, s[1..]) by {
        if IsSubstring(t, s) {
          var i :| OccursAt(t, s, i);
          assert i != 0;
          assert s[1..][i - 1..i - 1 + |t|] == s[i..i + |t|];
          assert OccursAt(t, s[1..], i - 1);
        }
      }
      r
  }

  /** The search part of the dashboard filter. */
  function MatchesSearch(s: Service, search: string): (r: bool)
    ensures r <==>
      || search == ""
      || IsSubstring(ToLower(search), ToLower(s.user.fullName))
      || IsSubstring(ToLower(search), ToLower(s.user.email))
      || (s.processNumber.Some? && IsSubstring(ToLower(search), ToLower(s.processNumber.value)))
  {
    var needle := ToLower(search);
    || search == ""
    || Includes(ToLower(s.user.fullName), needle)
    || Includes(ToLower(s.user.email), needle)
    || (s.processNumber.Some? && Includes(ToLower(s.processNumber.value), needle))
  }

  /** The status part of the dashboard filter: `"all"`, or strict equality with the status. */
  function MatchesStatus(s: Service, statusFilter: string): (r: bool)
    ensures statusFilter != AllStatuses ==> (r <==> s.status == Some(statusFilter))
    ensures statusFilter == AllStatuses ==> r
  {
    statusFilter == AllStatuses || s.status == Some(statusFilter)
  }

  function Matches(s: Service, search: string, statusFilter: string): bool {
    MatchesSearch(s, search) && MatchesStatus(s, statusFilter)
  }

  /** `filteredServices`: the services matching both the search and the status filter, each as
      often as it occurs in the list (their order is `FilterPreservesOrder`). */
  function FilterServices(services: seq<Service>, search: string, statusFilter: string): (r: seq<Service>)
    ensures forall s :: s in r <==> s in services && Matches(s, search, statusFilter)
    ensures statusFilter != AllStatuses ==> forall s :: s in r ==> s.status == Some(statusFilter)
    ensures forall s :: multiset(r)[s] == if Matches(s, search, statusFilter) then multiset(services)[s] else 0
  {
    Seqs.FilterCounts(s => Matches(s, search, statusFilter), services);
    Seqs.Filter(s => Matches(s, search, statusFilter), services)
  }

  /** The filtered list keeps the services' relative order. */
  lemma FilterPreservesOrder(services: seq<Service>, search: string, statusFilter: string)
    ensures Seqs.SubsequenceOf(FilterServices(services, search, statusFilter), services)
  {
    Seqs.FilterIsSubsequence(s => Matches(s, search, statusFilter), services);
  }

  /** With an empty search and the status filter at "all", every service is listed, in order. */
  lemma NoFilterListsAll(services: seq<Service>)
    ensures FilterServices(services, "", AllStatuses) == services
  {
    Seqs.FilterKeepsAll(s => Matches(s, "", AllStatuses), services);
  }

  /** Filtering the filtered list again changes nothing. */
  lemma FilterIdempotent(services: seq<Service>, search: string, statusFilter: string)
    ensures FilterServices(FilterServices(services, search, statusFilter), search, statusFilter)
         == FilterServices(services, search, statusFilter)
  {
    Seqs.FilterIdempotent(s => Matches(s, search, statusFilter), services);
  }

  /** `services.map(s => s.status).filter(Boolean)`: the statuses that are neither null nor "". */
  function TruthyStatuses(services: seq<Service>): (r: seq<string>)
    ensures forall x :: x in r <==> x != "" && exists s :: s in services && s.status == Some(x)
  {
    if |services| == 0 then []
    else
      var rest := TruthyStatuses(services[1..]);
      assert forall s :: s in services <==> s == services[0] || s in services[1..];
      var st := services[0].status;
      if st.Some? && st.value != "" then [st.value] + rest else rest
  }

  /** `uniqueStatuses`: each non-empty status occurring in `services` once, in order of first occurrence. */
  function UniqueStatuses(services: seq<Service>): (r: seq<string>)
    ensures Seqs.Distinct(r)
    ensures "" !in r
    ensures forall x :: x in r <==> x != "" && exists s :: s in services && s.status == Some(x)
  {
    Seqs.FirstOccurrences(TruthyStatuses(services))
  }
}
