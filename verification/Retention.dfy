/** Compaction schedules: which generations below HEAD a run may delete. */
module Retention {
  datatype Schedule = Prune | KeepRecent(keep: nat) | Checkpoint(every: nat)

  predicate ValidSchedule(s: Schedule) {
    s.Checkpoint? ==> s.every >= 1
  }

  /** The members of `s` below `n`, in ascending order. */
  function Ascending(s: set<nat>, n: nat): (r: seq<nat>)
    ensures forall g :: g in r <==> g in s && g < n
    ensures forall i, j :: 0 <= i < j < |r| ==> r[i] < r[j]
  {
    if n == 0 then [] else
      var rest := Ascending(s, n - 1);
      assert forall i :: 0 <= i < |rest| ==> rest[i] in rest;
      if n - 1 in s then rest + [n - 1] else rest
  }

  const LISTED := 1_000_000

  /** Generation and pin files are listed by names with exactly six digits; a seventh digit hides them. */
  predicate Listable(g: nat) {
    g < LISTED
  }

  predicate Eligible(schedule: Schedule, g: nat)
    requires ValidSchedule(schedule)
  {
    schedule.Checkpoint? ==> g % schedule.every != 0
  }

  function Candidates(schedule: Schedule, onDisk: set<nat>, live: set<nat>, head: nat): seq<nat>
    requires ValidSchedule(schedule)
  {
    Ascending((set g | g in onDisk && Listable(g) && g !in live && Eligible(schedule, g)), head)
  }

  /** The victims of one run, in the order they are deleted. */
  function Victims(schedule: Schedule, onDisk: set<nat>, live: set<nat>, head: nat): (r: seq<nat>)
    requires ValidSchedule(schedule)
    ensures forall g :: g in r ==> g in onDisk && Listable(g) && g !in live && g < head && Eligible(schedule, g)
    ensures forall i, j :: 0 <= i < j < |r| ==> r[i] < r[j]
  {
    var all := Candidates(schedule, onDisk, live, head);
    assert forall i :: 0 <= i < |all| ==> all[i] in all;
    if schedule.KeepRecent? then
      all[..if |all| > schedule.keep then |all| - schedule.keep else 0]
    else
      all
  }

  predicate StrictlyAscending(r: seq<nat>) {
    forall i, j :: 0 <= i < j < |r| ==> r[i] < r[j]
  }

  function Insert(r: seq<nat>, x: nat): (t: seq<nat>)
    requires StrictlyAscending(r) && x !in r
    ensures StrictlyAscending(t)
    ensures forall g :: g in t <==> g in r || g == x
  {
    if r == [] then [x]
    else if x < r[0] then [x] + r
    else
      assert forall g :: g in r[1..] ==> g in r;
      var rest := Insert(r[1..], x);
      assert forall k :: 0 <= k < |rest| ==> rest[k] in rest;
      assert forall g :: g in r[1..] ==> r[0] < g;
      [r[0]] + rest
  }

  /** `sorted(...)` of a set of generation numbers. */
  method Sorted(s: set<nat>) returns (r: seq<nat>)
    ensures StrictlyAscending(r)
    ensures forall g :: g in r <==> g in s
  {
    r := [];
    var todo := s;
    while todo != {}
      invariant todo <= s && StrictlyAscending(r)
      invariant forall g :: g in r <==> g in s && g !in todo
    {
      var g :| g in todo;
      r := Insert(r, g);
      todo := todo - {g};
    }
  }
}
