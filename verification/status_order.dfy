/** The order in which container statuses are listed. */
module StatusOrder {
  import opened Wrappers
  import opened Api

  // ---------- init containers: the order of the spec, in place ----------

  /** The first position from `i` on that has the name, or the length. */
  function IndexFrom(s: seq<ContainerStatus>, i: nat, name: string): (j: nat)
    requires i <= |s|
    ensures i <= j <= |s| && (j < |s| ==> s[j].name == name) && forall k :: i <= k < j ==> s[k].name != name
    decreases |s| - i
  {
    if i == |s| || s[i].name == name then i else IndexFrom(s, i + 1, name)
  }

  function Swap(s: seq<ContainerStatus>, i: nat, j: nat): seq<ContainerStatus>
    requires i < |s| && j < |s|
  {
    s[i := s[j]][j := s[i]]
  }

  /** What the swaps make of the statuses when the first `current` are in place. */
  function Arrange(names: seq<string>, s: seq<ContainerStatus>, current: nat): (r: seq<ContainerStatus>)
    requires current <= |s|
    ensures |r| == |s|
    decreases |names|
  {
    if names == [] then s
    else
      var j := IndexFrom(s, current, names[0]);
      if j < |s| then Arrange(names[1..], Swap(s, current, j), current + 1) else Arrange(names[1..], s, current)
  }

  function NamesOf(containers: seq<Container>): seq<string> {
    seq(|containers|, i requires 0 <= i < |containers| => containers[i].name)
  }

  /** Puts the statuses into the order of the containers, in place. */
  method SortInitContainerStatuses(containers: seq<Container>, statuses: array<ContainerStatus>)
    modifies statuses
    ensures statuses[..] == Arrange(NamesOf(containers), old(statuses[..]), 0)
  {
    var current := 0;
    ghost var names := NamesOf(containers);
    for i := 0 to |containers|
      invariant current <= statuses.Length
      invariant Arrange(names[i..], statuses[..], current) == Arrange(names, old(statuses[..]), 0)
    {
      ghost var s := statuses[..];
      var j := current;
      while j < statuses.Length && containers[i].name != statuses[j].name
        invariant current <= j <= statuses.Length
        invariant IndexFrom(s, current, containers[i].name) == IndexFrom(s, j, containers[i].name)
      {
        j := j + 1;
      }
      assert names[i..][1..] == names[i + 1..] && names[i] == containers[i].name;
      assert j == IndexFrom(s, current, containers[i].name);
      if j < statuses.Length {
        statuses[current], statuses[j] := statuses[j], statuses[current];
        assert statuses[..] == Swap(s, current, j);
        current := current + 1;
      }
    }
  }

  predicate Permutation(a: seq<ContainerStatus>, b: seq<ContainerStatus>) {
    multiset(a) == multiset(b)
  }

  lemma SwapPermutes(s: seq<ContainerStatus>, i: nat, j: nat)
    requires i < |s| && j < |s|
    ensures Permutation(Swap(s, i, j), s)
  {
  }

  lemma {:induction false} ArrangePermutes(names: seq<string>, s: seq<ContainerStatus>, current: nat)
    requires current <= |s|
    ensures Permutation(Arrange(names, s, current), s)
    decreases |names|
  {
    if names != [] {
      var j := IndexFrom(s, current, names[0]);
      if j < |s| {
        SwapPermutes(s, current, j);
        ArrangePermutes(names[1..], Swap(s, current, j), current + 1);
      } else {
        ArrangePermutes(names[1..], s, current);
      }
    }
  }

  predicate HasName(s: seq<ContainerStatus>, name: string) {
    exists i :: 0 <= i < |s| && s[i].name == name
  }

  /** The names that have a status, in their order. */
  function Present(names: seq<string>, s: seq<ContainerStatus>): seq<string> {
    if names == [] then [] else (if HasName(s, names[0]) then [names[0]] else []) + Present(names[1..], s)
  }

  predicate Distinct(names: seq<string>) {
    forall i, j :: 0 <= i < j < |names| ==> names[i] != names[j]
  }

  function StatusNames(s: seq<ContainerStatus>): seq<string> {
    seq(|s|, i requires 0 <= i < |s| => s[i].name)
  }

  lemma {:induction false} PresentCongruent(names: seq<string>, a: seq<ContainerStatus>, b: seq<ContainerStatus>)
    requires forall n :: n in names ==> (HasName(a, n) <==> HasName(b, n))
    ensures Present(names, a) == Present(names, b)
  {
    if names != [] {
      assert forall n :: n in names[1..] ==> n in names;
      PresentCongruent(names[1..], a, b);
      hide HasName;
      assert names[0] in names;
    }
  }

  /** Swapping a status of another name into place leaves the other names behind it. */
  lemma RestKeepsNames(s: seq<ContainerStatus>, current: nat, j: nat, n: string)
    requires current <= j < |s| && s[j].name != n
    ensures HasName(Swap(s, current, j)[current + 1..], n) <==> HasName(s[current..], n)
  {
    var t := Swap(s, current, j);
    if k :| current <= k < |s| && s[k].name == n {
      assert s[current..][k - current].name == n;
      if k == current {
        assert t[current + 1..][j - current - 1].name == n;
      } else {
        assert t[current + 1..][k - current - 1].name == n;
      }
    }
    var tail := t[current + 1..];
    if k :| 0 <= k < |tail| && tail[k].name == n {
      var i := current + 1 + k;
      assert t[i].name == n;
      if i == j { assert s[current..][0].name == n; } else { assert s[current..][i - current].name == n; }
    }
  }

  /** From `current` on the statuses named in the spec come first, in its order. */
  ghost predicate Placed(r: seq<ContainerStatus>, s: seq<ContainerStatus>, current: nat, present: seq<string>)
    requires current <= |s| == |r|
  {
    r[..current] == s[..current] && current + |present| <= |r| &&
    forall i :: 0 <= i < |present| ==> r[current + i].name == present[i]
  }

  lemma PlacedOneMore(
      r: seq<ContainerStatus>, s: seq<ContainerStatus>, t: seq<ContainerStatus>, current: nat, name: string,
      present: seq<string>)
    requires current < |s| == |t| == |r| && t[..current] == s[..current] && t[current].name == name
    requires Placed(r, t, current + 1, present)
    ensures Placed(r, s, current, [name] + present)
  {
    assert r[current] == r[..current + 1][current] == t[..current + 1][current];
    assert r[..current] == r[..current + 1][..current] == t[..current + 1][..current];
    forall i | 0 <= i < |present| + 1 ensures r[current + i].name == ([name] + present)[i] {
      if i > 0 { assert r[current + 1 + (i - 1)].name == present[i - 1]; }
    }
  }

  lemma {:induction false} ArrangePlaces(names: seq<string>, s: seq<ContainerStatus>, current: nat)
    requires current <= |s| && Distinct(names)
    ensures Placed(Arrange(names, s, current), s, current, Present(names, s[current..]))
    decreases |names|
  {
    if names != [] {
      var j := IndexFrom(s, current, names[0]);
      var rest := names[1..];
      if j < |s| {
        var t := Swap(s, current, j);
        ArrangePlaces(rest, t, current + 1);
        forall n | n in rest ensures HasName(t[current + 1..], n) <==> HasName(s[current..], n) {
          RestKeepsNames(s, current, j, n);
        }
        PresentCongruent(rest, t[current + 1..], s[current..]);
        assert s[current..][j - current].name == names[0];
        hide Placed, Present;
        PlacedOneMore(Arrange(names, s, current), s, t, current, names[0], Present(rest, s[current..]));
        PresentFound(names, s[current..]);
      } else {
        ArrangePlaces(rest, s, current);
        assert !HasName(s[current..], names[0]);
        assert [] + Present(rest, s[current..]) == Present(rest, s[current..]);
      }
    }
  }

  lemma PresentFound(names: seq<string>, s: seq<ContainerStatus>)
    requires names != [] && HasName(s, names[0])
    ensures Present(names, s) == [names[0]] + Present(names[1..], s)
  {
  }

  /** The in-place order is a permutation that begins with the statuses the spec names, in its order. */
  lemma InitOrder(containers: seq<Container>, s: seq<ContainerStatus>)
    requires Distinct(NamesOf(containers))
    ensures var r, present := Arrange(NamesOf(containers), s, 0), Present(NamesOf(containers), s);
            Permutation(r, s) && |present| <= |s| &&
            StatusNames(r)[..|present|] == present
  {
    ArrangePermutes(NamesOf(containers), s, 0);
    ArrangePlaces(NamesOf(containers), s, 0);
    assert s[0..] == s;
  }

  lemma {:induction false} PresentIs(names: seq<string>, s: seq<ContainerStatus>)
    requires Distinct(names)
    ensures Distinct(Present(names, s)) && forall n :: n in Present(names, s) <==> n in names && HasName(s, n)
  {
    if names != [] {
      PresentIs(names[1..], s);
      hide HasName;
      assert forall n :: n in names <==> n == names[0] || n in names[1..];
    }
  }

  /** Of statuses with distinct names exactly those in front are named in the spec. */
  lemma NamedInFront(containers: seq<Container>, s: seq<ContainerStatus>, i: nat)
    requires Distinct(NamesOf(containers)) && Distinct(StatusNames(s)) && i < |s|
    ensures var r, present := Arrange(NamesOf(containers), s, 0), Present(NamesOf(containers), s);
            r[i].name in NamesOf(containers) <==> i < |present|
  {
    var names := NamesOf(containers);
    var r, present := Arrange(names, s, 0), Present(names, s);
    InitOrder(containers, s);
    PresentIs(names, s);
    DistinctPermuted(s, r);
    if i < |present| { assert StatusNames(r)[..|present|][i] == present[i]; }
    if r[i].name in names {
      assert r[i] in multiset(r);
      var k :| 0 <= k < |s| && s[k] == r[i];
      assert HasName(s, r[i].name);
      var p :| 0 <= p < |present| && present[p] == r[i].name;
      assert StatusNames(r)[..|present|][p] == StatusNames(r)[p] == StatusNames(r)[i];
      assert p == i;
    }
  }

  lemma DistinctPermuted(s: seq<ContainerStatus>, r: seq<ContainerStatus>)
    requires Permutation(r, s) && Distinct(StatusNames(s))
    ensures Distinct(StatusNames(r))
  {
    forall i, j | 0 <= i < j < |r| ensures StatusNames(r)[i] != StatusNames(r)[j] {
      assert r[i] in multiset(r) && r[j] in multiset(r);
      var a :| 0 <= a < |s| && s[a] == r[i];
      var b :| 0 <= b < |s| && s[b] == r[j];
      if r[i] == r[j] { TwiceMeansTwo(r, i, j); }
      OnceMeansOne(s, a);
      assert a != b;
      assert StatusNames(s)[if a < b then a else b] != StatusNames(s)[if a < b then b else a];
    }
  }

  lemma TwiceMeansTwo(r: seq<ContainerStatus>, i: nat, j: nat)
    requires i < j < |r| && r[i] == r[j]
    ensures multiset(r)[r[i]] >= 2
  {
    assert r == r[..i + 1] + r[i + 1..];
    assert r[i] in r[..i + 1] && r[j] in r[i + 1..] by {
      assert r[..i + 1][i] == r[i] && r[i + 1..][j - i - 1] == r[j];
    }
  }

  lemma OnceMeansOne(s: seq<ContainerStatus>, a: nat)
    requires a < |s| && Distinct(StatusNames(s))
    ensures multiset(s)[s[a]] == 1
  {
    assert s == s[..a] + [s[a]] + s[a + 1..];
    forall k | 0 <= k < |s| && k != a ensures s[k] != s[a] {
      assert StatusNames(s)[k] != StatusNames(s)[a];
    }
    assert s[a] !in s[..a] && s[a] !in s[a + 1..];
  }

  // ---------- init containers: the order of the spec, from a map ----------

  function InSpecOrder(containers: seq<Container>, statuses: map<string, ContainerStatus>): seq<ContainerStatus> {
    if containers == [] then []
    else
      (if containers[0].name in statuses then [statuses[containers[0].name]] else []) +
        InSpecOrder(containers[1..], statuses)
  }

  method SortStatusesOfInitContainers(containers: seq<Container>, statusMap: map<string, ContainerStatus>)
    returns (statuses: seq<ContainerStatus>)
    ensures statuses == InSpecOrder(containers, statusMap)
  {
    statuses := [];
    for i := 0 to |containers|
      invariant statuses + InSpecOrder(containers[i..], statusMap) == InSpecOrder(containers, statusMap)
    {
      assert containers[i..][1..] == containers[i + 1..];
      if containers[i].name in statusMap { statuses := statuses + [statusMap[containers[i].name]]; }
    }
  }

  /** The map holds the statuses under their names. */
  predicate MapOf(statuses: map<string, ContainerStatus>, s: seq<ContainerStatus>) {
    (forall n :: n in statuses ==> statuses[n].name == n && statuses[n] in s) &&
    (forall i :: 0 <= i < |s| ==> s[i].name in statuses && statuses[s[i].name] == s[i])
  }

  lemma {:induction false} InSpecOrderIs(
      containers: seq<Container>, statuses: map<string, ContainerStatus>, s: seq<ContainerStatus>)
    requires MapOf(statuses, s)
    ensures StatusNames(InSpecOrder(containers, statuses)) == Present(NamesOf(containers), s)
    ensures forall x :: x in InSpecOrder(containers, statuses) ==> x.name in statuses && x == statuses[x.name]
  {
    if containers != [] {
      InSpecOrderIs(containers[1..], statuses, s);
      assert NamesOf(containers)[1..] == NamesOf(containers[1..]);
      assert HasName(s, containers[0].name) <==> containers[0].name in statuses;
      StatusNamesConcat(if containers[0].name in statuses then [statuses[containers[0].name]] else [],
                        InSpecOrder(containers[1..], statuses));
    }
  }

  lemma StatusNamesConcat(a: seq<ContainerStatus>, b: seq<ContainerStatus>)
    ensures StatusNames(a + b) == StatusNames(a) + StatusNames(b)
  {
  }

  /** When the spec names all the statuses, sorting in place and building from the map give the same list. */
  lemma SortsAgree(containers: seq<Container>, s: seq<ContainerStatus>, statuses: map<string, ContainerStatus>)
    requires Distinct(NamesOf(containers)) && Distinct(StatusNames(s)) && MapOf(statuses, s)
    requires forall i :: 0 <= i < |s| ==> s[i].name in NamesOf(containers)
    ensures Arrange(NamesOf(containers), s, 0) == InSpecOrder(containers, statuses)
  {
    var names := NamesOf(containers);
    var r, present, t := Arrange(names, s, 0), Present(names, s), InSpecOrder(containers, statuses);
    InitOrder(containers, s);
    InSpecOrderIs(containers, statuses, s);
    AllPresent(containers, s);
    hide Arrange, InSpecOrder, Present;
    assert |t| == |StatusNames(t)| == |s| && StatusNames(r)[..|s|] == StatusNames(r);
    forall i | 0 <= i < |s| ensures r[i] == t[i] {
      assert r[i] in multiset(r);
      assert r[i] in s && r[i] == statuses[r[i].name];
      assert StatusNames(r)[i] == StatusNames(t)[i];
      assert t[i] in t;
    }
  }

  lemma AllPresent(containers: seq<Container>, s: seq<ContainerStatus>)
    requires Distinct(NamesOf(containers)) && Distinct(StatusNames(s))
    requires forall i :: 0 <= i < |s| ==> s[i].name in NamesOf(containers)
    ensures |Present(NamesOf(containers), s)| == |s|
  {
    InitOrder(containers, s);
    if s != [] {
      var r, last := Arrange(NamesOf(containers), s, 0), |s| - 1;
      NamedInFront(containers, s, last);
      assert r[last] in multiset(r);
      assert r[last] in s;
    }
  }

  // ---------- other containers: the order of the names ----------

  /** The lexicographic order of strings. */
  predicate Less(a: string, b: string) {
    b != "" && (a == "" || a[0] < b[0] || (a[0] == b[0] && Less(a[1..], b[1..])))
  }

  lemma {:induction false} LessTransitive(a: string, b: string, c: string)
    requires Less(a, b) && Less(b, c)
    ensures Less(a, c)
  {
    if a != "" && a[0] == b[0] && b[0] == c[0] { LessTransitive(a[1..], b[1..], c[1..]); }
  }

  lemma {:induction false} LessTotal(a: string, b: string)
    ensures a != b ==> Less(a, b) || Less(b, a)
    ensures !(Less(a, b) && Less(b, a)) && !Less(a, a)
  {
    if a != "" && b != "" && a[0] == b[0] {
      LessTotal(a[1..], b[1..]);
      assert a == [a[0]] + a[1..] && b == [b[0]] + b[1..];
    }
    LessIrreflexive(a);
  }

  lemma {:induction false} LessIrreflexive(a: string)
    ensures !Less(a, a)
  {
    if a != "" { LessIrreflexive(a[1..]); }
  }

  ghost predicate InNameOrder(s: seq<ContainerStatus>) {
    forall i, j :: 0 <= i < j < |s| ==> Less(s[i].name, s[j].name)
  }

  /** The statuses of the map, in the order of their names. */
  ghost predicate Lists(s: seq<ContainerStatus>, statuses: map<string, ContainerStatus>) {
    MapOf(statuses, s) && InNameOrder(s)
  }

  function Insert(s: seq<ContainerStatus>, x: ContainerStatus): seq<ContainerStatus> {
    if s == [] then [x] else if Less(x.name, s[0].name) then [x] + s else [s[0]] + Insert(s[1..], x)
  }

  lemma {:induction false} InsertOrdered(s: seq<ContainerStatus>, x: ContainerStatus)
    requires InNameOrder(s) && forall y :: y in s ==> y.name != x.name
    ensures InNameOrder(Insert(s, x))
    ensures forall y :: y in Insert(s, x) <==> y == x || y in s
  {
    if s != [] {
      assert forall y :: y in s <==> y == s[0] || y in s[1..];
      LessTotal(x.name, s[0].name);
      if Less(x.name, s[0].name) {
        forall j | 0 <= j < |s| ensures Less(x.name, s[j].name) {
          if j > 0 { LessTransitive(x.name, s[0].name, s[j].name); }
        }
      } else {
        InsertOrdered(s[1..], x);
        var rest := Insert(s[1..], x);
        forall j | 0 <= j < |rest| ensures Less(s[0].name, rest[j].name) {
          assert rest[j] in rest;
          if rest[j] != x {
            var k :| 0 <= k < |s[1..]| && s[1..][k] == rest[j];
            assert s[k + 1] == rest[j];
          }
        }
      }
    }
  }

  /** The statuses of the map, which yields them in any order, sorted by name. */
  method SortByName(statuses: map<string, ContainerStatus>) returns (s: seq<ContainerStatus>)
    requires forall n :: n in statuses ==> statuses[n].name == n
    ensures Lists(s, statuses)
  {
    var left := statuses.Keys;
    s := [];
    while left != {}
      invariant left <= statuses.Keys && InNameOrder(s)
      invariant forall x :: x in s <==> x.name in statuses.Keys - left && statuses[x.name] == x
      decreases left
    {
      var name :| name in left;
      left := left - {name};
      InsertOrdered(s, statuses[name]);
      s := Insert(s, statuses[name]);
    }
    assert forall i :: 0 <= i < |s| ==> s[i] in s;
    forall n | n in statuses ensures statuses[n] in s {
      assert statuses[n].name in statuses.Keys - left;
    }
  }

  /** There is only one such list, so the order in which the map yields its entries does not matter. */
  lemma {:induction false} ListIsUnique(a: seq<ContainerStatus>, b: seq<ContainerStatus>)
    requires InNameOrder(a) && InNameOrder(b) && forall x :: x in a <==> x in b
    ensures a == b
  {
    assert (a != [] ==> a[0] in b) && (b != [] ==> b[0] in a);
    if a != [] && b != [] {
      FirstIsLeast(a, b);
      FirstIsLeast(b, a);
      LessTotal(a[0].name, b[0].name);
      assert a[0] in b && b[0] in a;
      NotFirst(a, b[0]);
      assert a[0] == b[0];
      forall x ensures x in a[1..] <==> x in b[1..] {
        NotAgain(a, x);
        NotAgain(b, x);
      }
      ListIsUnique(a[1..], b[1..]);
    }
  }

  lemma MapIsListedOnce(a: seq<ContainerStatus>, b: seq<ContainerStatus>, statuses: map<string, ContainerStatus>)
    requires Lists(a, statuses) && Lists(b, statuses)
    ensures a == b
  {
    forall x ensures x in a <==> x in b {
      assert x in a <==> x.name in statuses && statuses[x.name] == x;
      assert x in b <==> x.name in statuses && statuses[x.name] == x;
    }
    ListIsUnique(a, b);
  }

  lemma FirstIsLeast(a: seq<ContainerStatus>, b: seq<ContainerStatus>)
    requires a != [] && b != [] && InNameOrder(a) && forall x :: x in b ==> x in a
    ensures b[0] == a[0] || Less(a[0].name, b[0].name)
  {
    assert b[0] in a;
  }

  lemma NotFirst(a: seq<ContainerStatus>, x: ContainerStatus)
    requires a != [] && InNameOrder(a) && x in a
    ensures x == a[0] || Less(a[0].name, x.name)
  {
  }

  lemma NotAgain(a: seq<ContainerStatus>, x: ContainerStatus)
    requires a != [] && InNameOrder(a)
    ensures x in a[1..] <==> x in a && x != a[0]
  {
    LessIrreflexive(a[0].name);
    if x in a[1..] {
      var k :| 0 <= k < |a[1..]| && a[1..][k] == x;
      assert a[k + 1] == x && Less(a[0].name, a[k + 1].name);
    }
  }
}
