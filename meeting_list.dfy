/**
 * The operations FileManagerService performs on its in-memory `meetings` array: the sort by
 * start time (most recent first), lookup by id, removal by id, replacement of the first entry
 * with an id, and the meeting search filter.
 */
module MeetingList {
  import opened Wrappers
  import opened Text
  import opened Models
  import opened Sequences

  /** Most recent first: what `sort { $0.startTime > $1.startTime }` establishes. */
  predicate SortedByStartDescending(s: seq<Meeting>) {
    forall i, j :: 0 <= i < j < |s| ==> s[i].startTime >= s[j].startTime
  }

  lemma {:induction false} SubsequenceReflexive(s: seq<Meeting>)
    ensures IsSubsequence(s, s)
    decreases |s|
  {
    if s != [] {
      SubsequenceReflexive(s[1..]);
    }
  }

  /**
   * Inserts `m` into a list sorted most recent first, after every entry whose start time is
   * not earlier than `m`'s, so that entries with equal start times keep the order in which
   * they were added.
   */
  function InsertByStart(sorted: seq<Meeting>, m: Meeting): (r: seq<Meeting>)
    requires SortedByStartDescending(sorted)
    ensures SortedByStartDescending(r)
    ensures multiset(r) == multiset(sorted) + multiset{m}
    ensures IsSubsequence(sorted, r)
    decreases |sorted|
  {
    if sorted == [] then [m]
    else if sorted[0].startTime >= m.startTime then
      var rest := InsertByStart(sorted[1..], m);
      PrependSorted(sorted, m, rest);
      [sorted[0]] + rest
    else
      SubsequenceReflexive(sorted);
      var r := [m] + sorted;
      assert r[1..] == sorted;
      r
  }

  /** The step of `InsertByStart` that keeps the head in front of the insertion into the tail. */
  lemma PrependSorted(sorted: seq<Meeting>, m: Meeting, rest: seq<Meeting>)
    requires sorted != [] && SortedByStartDescending(sorted) && sorted[0].startTime >= m.startTime
    requires SortedByStartDescending(rest)
    requires multiset(rest) == multiset(sorted[1..]) + multiset{m}
    requires IsSubsequence(sorted[1..], rest)
    ensures SortedByStartDescending([sorted[0]] + rest)
    ensures multiset([sorted[0]] + rest) == multiset(sorted) + multiset{m}
    ensures IsSubsequence(sorted, [sorted[0]] + rest)
  {
    HeadBeforeRest(sorted, m, rest);
    assert sorted == [sorted[0]] + sorted[1..];
    assert ([sorted[0]] + rest)[1..] == rest;
  }

  /** The head of a sorted list starts no earlier than anything inserted behind it. */
  lemma HeadBeforeRest(sorted: seq<Meeting>, m: Meeting, rest: seq<Meeting>)
    requires sorted != [] && SortedByStartDescending(sorted) && sorted[0].startTime >= m.startTime
    requires SortedByStartDescending(rest)
    requires multiset(rest) == multiset(sorted[1..]) + multiset{m}
    ensures SortedByStartDescending([sorted[0]] + rest)
  {
    forall j | 0 <= j < |rest|
      ensures sorted[0].startTime >= rest[j].startTime
    {
      assert rest[j] in multiset(rest);
      if rest[j] != m {
        assert rest[j] in sorted[1..];
      }
    }
    var r := [sorted[0]] + rest;
    forall i, j | 0 <= i < j < |r|
      ensures r[i].startTime >= r[j].startTime
    {
      assert r[j] == rest[j - 1];
      if i > 0 {
        assert r[i] == rest[i - 1];
      }
    }
  }

  /** The array sorted most recent first, by inserting its entries one after another. */
  function SortByStartDescending(s: seq<Meeting>): (r: seq<Meeting>)
    ensures SortedByStartDescending(r)
    ensures multiset(r) == multiset(s)
    decreases |s|
  {
    if s == [] then []
    else
      assert s == s[..|s| - 1] + [s[|s| - 1]];
      InsertByStart(SortByStartDescending(s[..|s| - 1]), s[|s| - 1])
  }

  /** A meeting that starts no later than every listed one goes to the end. */
  lemma {:induction false} InsertLast(sorted: seq<Meeting>, m: Meeting)
    requires SortedByStartDescending(sorted)
    requires forall i :: 0 <= i < |sorted| ==> sorted[i].startTime >= m.startTime
    ensures InsertByStart(sorted, m) == sorted + [m]
    decreases |sorted|
  {
    if sorted != [] {
      var tail := sorted[1..];
      SortedTail(sorted);
      assert forall i :: 0 <= i < |tail| ==> tail[i].startTime >= m.startTime by {
        forall i | 0 <= i < |tail| ensures tail[i].startTime >= m.startTime {
          assert tail[i] == sorted[i + 1];
        }
      }
      InsertLast(tail, m);
      assert sorted[0].startTime >= m.startTime;
      assert InsertByStart(sorted, m) == [sorted[0]] + InsertByStart(tail, m);
      HeadThenAppend(sorted, m);
    } else {
      assert sorted + [m] == [m];
    }
  }

  /** Dropping the most recent entry keeps a list sorted. */
  lemma SortedTail(s: seq<Meeting>)
    requires s != [] && SortedByStartDescending(s)
    ensures SortedByStartDescending(s[1..])
  {
    forall i, j | 0 <= i < j < |s| - 1
      ensures s[1..][i].startTime >= s[1..][j].startTime
    {
      assert s[1..][i] == s[i + 1] && s[1..][j] == s[j + 1];
    }
  }

  /** Sorting a list that is already sorted leaves it exactly as it was. */
  lemma {:induction false} SortSortedIsIdentity(s: seq<Meeting>)
    requires SortedByStartDescending(s)
    ensures SortByStartDescending(s) == s
    decreases |s|
  {
    if s != [] {
      var init := s[..|s| - 1];
      SortSortedIsIdentity(init);
      InsertLast(init, s[|s| - 1]);
      assert init + [s[|s| - 1]] == s;
    }
  }

  /**
   * Appending to a sorted list and sorting is inserting in place: the entries already there
   * keep their relative order.
   */
  lemma AppendThenSort(s: seq<Meeting>, m: Meeting)
    ensures SortedByStartDescending(s) ==> SortByStartDescending(s + [m]) == InsertByStart(s, m)
    ensures SortedByStartDescending(s) ==> IsSubsequence(s, SortByStartDescending(s + [m]))
  {
    if SortedByStartDescending(s) {
      assert (s + [m])[..|s + [m]| - 1] == s;
      SortSortedIsIdentity(s);
    }
  }

  /** `meetings.contains(where: { $0.id == id })`. */
  predicate HasId(s: seq<Meeting>, id: Uuid) {
    exists i :: 0 <= i < |s| && s[i].id == id
  }

  /** Entry `i` is the first one carrying `id`. */
  predicate IsFirstWithId(s: seq<Meeting>, i: int, id: Uuid)
    requires 0 <= i < |s|
  {
    s[i].id == id && forall j :: 0 <= j < i ==> s[j].id != id
  }

  /** `meetings.firstIndex(where: { $0.id == id })`. */
  function FirstIndexOfId(s: seq<Meeting>, id: Uuid): (k: Option<nat>)
    ensures k.None? <==> !HasId(s, id)
    ensures k.Some? ==> k.value < |s| && IsFirstWithId(s, k.value, id)
    decreases |s|
  {
    if s == [] then None
    else if s[0].id == id then Some(0)
    else
      match FirstIndexOfId(s[1..], id)
      case None =>
        assert forall i :: 1 <= i < |s| ==> s[i] == s[1..][i - 1];
        None
      case Some(k) => Some(k + 1)
  }

  /** `meetings.removeAll { $0.id == id }`. */
  function RemoveId(s: seq<Meeting>, id: Uuid): (r: seq<Meeting>)
    ensures !HasId(r, id)
    ensures IsSubsequence(r, s)
    ensures forall x :: x in s && x.id != id ==> x in r
    ensures forall x :: multiset(r)[x] == if x.id != id then multiset(s)[x] else 0
  {
    var keep := (x: Meeting) => x.id != id;
    var r := Filter(s, keep);
    assert forall i :: 0 <= i < |r| ==> r[i] in r;
    FilterCounts(s, keep);
    r
  }

  /** `if let index = firstIndex(...) { meetings[index] = m }`. */
  function ReplaceFirst(s: seq<Meeting>, m: Meeting): (r: seq<Meeting>)
    ensures |r| == |s|
    ensures forall i :: 0 <= i < |s| ==> r[i] == (if IsFirstWithId(s, i, m.id) then m else s[i])
    ensures !HasId(s, m.id) ==> r == s
  {
    match FirstIndexOfId(s, m.id)
    case None => s
    case Some(k) => s[k := m]
  }

  /**
   * The filter of `searchMeetings`: the query occurs in the title, in the participants joined
   * by spaces, or in the summary; `contains` stands for `localizedCaseInsensitiveContains`.
   */
  predicate MeetingMatches(m: Meeting, query: string, contains: (string, string) -> bool) {
    || contains(m.title, query)
    || contains(Join(m.participants, " "), query)
    || (m.summary.Some? && contains(m.summary.value, query))
  }

  /** `searchMeetings(query:)` over the list `meetings`. */
  function SearchMeetings(meetings: seq<Meeting>, query: string, contains: (string, string) -> bool): (r: seq<Meeting>)
    ensures query == "" ==> r == meetings
    ensures query != "" ==> forall m :: m in r <==> m in meetings && MeetingMatches(m, query, contains)
    ensures query != "" ==>
              forall m :: multiset(r)[m] == if MeetingMatches(m, query, contains) then multiset(meetings)[m] else 0
    ensures IsSubsequence(r, meetings)
  {
    if query == "" then
      SubsequenceReflexive(meetings);
      meetings
    else
      var matches := (m: Meeting) => MeetingMatches(m, query, contains);
      FilterCounts(meetings, matches);
      Filter(meetings, matches)
  }
}
