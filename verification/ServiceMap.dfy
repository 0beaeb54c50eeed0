/**
 * Routing a host and path to a service: an index of path prefixes per host,
 * rebuilt from the unordered services on every change and sorted longest first.
 */
module ServiceMap {
  import opened Text

  datatype Tls = Tls(enabled: bool, redirect: bool)

  datatype Service = Service(name: string, hosts: seq<string>, pathPrefixes: seq<string>, tls: Tls)

  datatype Binding = Binding(pathPrefix: string, service: string)

  type Services = map<string, Service>

  type Index = map<string, seq<Binding>>

  function EnsureTrailingSlash(path: string): string {
    if HasSuffix(path, "/") then path else path + "/"
  }

  predicate Matches(pathPrefix: string, path: string) {
    HasPrefix(EnsureTrailingSlash(path), EnsureTrailingSlash(pathPrefix))
  }

  // ---- What the index must be ----

  predicate Bound(services: Services, host: string, b: Binding) {
    b.service in services && host in services[b.service].hosts && b.pathPrefix in services[b.service].pathPrefixes
  }

  predicate LongestFirst(bindings: seq<Binding>) {
    forall i, j :: 0 <= i < j < |bindings| ==> |bindings[i].pathPrefix| >= |bindings[j].pathPrefix|
  }

  /** Every host's list holds exactly what the services bind there, longest first; how ties fall is open. */
  ghost predicate Indexes(index: Index, services: Services) {
    && (forall host :: host in index ==> index[host] != [] && LongestFirst(index[host]))
    && (forall host, b :: Listed(index, host, b) <==> Bound(services, host, b))
  }

  predicate Listed(index: Index, host: string, b: Binding) {
    host in index && b in index[host]
  }

  /** No two services claim one path prefix of one host. */
  ghost predicate NoConflict(services: Services) {
    forall host, a, b :: Bound(services, host, a) && Bound(services, host, b) && a.pathPrefix == b.pathPrefix ==> a == b
  }

  // ---- Lookup ----

  /** The host itself, else its wildcard one label up, else the catch-all. */
  function HostKey(hosts: set<string>, host: string): string {
    var dot := IndexOf(host, '.');
    if host in hosts then host
    else if 0 < dot < |host| && "*" + host[dot..] in hosts then "*" + host[dot..]
    else ""
  }

  /** The first binding that fits. */
  function First(bindings: seq<Binding>, fits: Binding -> bool): (found: Option<Binding>)
    ensures found.None? ==> forall i :: 0 <= i < |bindings| ==> !fits(bindings[i])
  {
    if bindings == [] then None else if fits(bindings[0]) then Some(bindings[0]) else First(bindings[1..], fits)
  }

  function FirstMatch(bindings: seq<Binding>, path: string): Option<Binding> {
    First(bindings, (b: Binding) => Matches(b.pathPrefix, path))
  }

  function ServiceFor(index: Index, host: string, path: string): Option<Binding> {
    var key := HostKey(index.Keys, host);
    if key in index then FirstMatch(index[key], path) else None
  }

  function BoundHosts(services: Services): set<string> {
    set name, host | name in services && host in services[name].hosts && services[name].pathPrefixes != [] :: host
  }

  /** Prefixes of one length that match one path are one prefix. */
  lemma SameLengthSamePrefix(a: string, b: string, path: string)
    requires Matches(a, path) && Matches(b, path) && |a| == |b|
    ensures a == b
  {
    var full := EnsureTrailingSlash(path);
    assert EnsureTrailingSlash(a)[..|a|] == a && EnsureTrailingSlash(b)[..|b|] == b;
    assert full[..|EnsureTrailingSlash(a)|][..|a|] == full[..|a|];
    assert full[..|EnsureTrailingSlash(b)|][..|b|] == full[..|b|];
  }

  lemma {:induction false} FirstIsLongest(bindings: seq<Binding>, fits: Binding -> bool)
    requires LongestFirst(bindings)
    ensures var found := First(bindings, fits);
            found.Some? ==>
              && found.value in bindings && fits(found.value)
              && forall i :: 0 <= i < |bindings| && fits(bindings[i]) ==> |bindings[i].pathPrefix| <= |found.value.pathPrefix|
  {
    if bindings != [] && !fits(bindings[0]) {
      var rest := bindings[1..];
      FirstIsLongest(rest, fits);
      assert forall i :: 0 < i < |bindings| ==> bindings[i] == rest[i - 1];
    }
  }

  /** The hosts of an index are those some service binds a path on. */
  lemma IndexedHosts(index: Index, services: Services)
    requires Indexes(index, services)
    ensures index.Keys == BoundHosts(services)
  {
    forall host ensures host in index <==> host in BoundHosts(services) {
      if host in index {
        assert Listed(index, host, index[host][0]);
        assert Bound(services, host, index[host][0]);
      }
      if host in BoundHosts(services) {
        var name :| name in services && host in services[name].hosts && services[name].pathPrefixes != [];
        assert Bound(services, host, Binding(services[name].pathPrefixes[0], name));
      }
    }
  }

  // ---- What the right answer is, in the services' own terms ----

  /** Some service binds a path on the host. */
  ghost predicate Binds(services: Services, host: string) {
    exists name, prefix :: name in services && host in services[name].hosts && prefix in services[name].pathPrefixes
  }

  /** A host is one label, not empty, and a tail that starts with a dot. */
  predicate LabelThenTail(host: string, tail: string) {
    0 < |tail| < |host| && tail[0] == '.' && host[|host| - |tail|..] == tail && '.' !in host[..|host| - |tail|]
  }

  ghost predicate BindsWildcard(services: Services, host: string) {
    exists tail :: LabelThenTail(host, tail) && Binds(services, "*" + tail)
  }

  /** Whose bindings answer for a host: its own, else those of the wildcard above it, else the catch-all's. */
  ghost predicate AnswersFor(services: Services, host: string, key: string) {
    if Binds(services, host) then key == host
    else if BindsWildcard(services, host) then exists tail :: LabelThenTail(host, tail) && Binds(services, "*" + tail) && key == "*" + tail
    else key == ""
  }

  /** The segments of a path, a trailing slash adding none. */
  function Segments(path: string): seq<string> {
    Cut(if path != "" && path[|path| - 1] == '/' then path else path + "/")
  }

  function Cut(text: string): seq<string> {
    if text == "" then [] else
      var slash := IndexOf(text, '/');
      if slash == |text| then [text] else [text[..slash]] + Cut(text[slash + 1..])
  }

  /** The prefix's segments are the path's first ones. */
  predicate Leads(pathPrefix: string, path: string) {
    Segments(pathPrefix) <= Segments(path)
  }

  /** A binding is the right answer: bound where the host is answered, leading the path, and no longer prefix there does. */
  ghost predicate BestFor(services: Services, host: string, path: string, b: Binding) {
    exists key :: AnswersFor(services, host, key) && Bound(services, key, b) && Leads(b.pathPrefix, path)
                  && forall c :: Bound(services, key, c) && Leads(c.pathPrefix, path) ==> |c.pathPrefix| <= |b.pathPrefix|
  }

  /** Nothing bound where the host is answered leads the path. */
  ghost predicate Unanswered(services: Services, host: string, path: string) {
    forall key, b :: AnswersFor(services, host, key) && Bound(services, key, b) ==> !Leads(b.pathPrefix, path)
  }

  lemma BindsIff(services: Services, host: string)
    ensures Binds(services, host) <==> host in BoundHosts(services)
  {
    if host in BoundHosts(services) {
      var name :| name in services && host in services[name].hosts && services[name].pathPrefixes != [];
      assert services[name].pathPrefixes[0] in services[name].pathPrefixes;
    }
  }

  lemma {:induction false} OneTail(host: string, tail: string)
    ensures LabelThenTail(host, tail) <==> 0 < IndexOf(host, '.') < |host| && tail == host[IndexOf(host, '.')..]
  {
    if LabelThenTail(host, tail) {
      var n := |host| - |tail|;
      assert host[n] == host[n..][0] == '.';
      IndexOfIs(host, '.', n);
    }
  }

  /** The lookup's host key is where the host is answered. */
  lemma {:induction false} HostKeyAnswers(services: Services, host: string, key: string)
    ensures AnswersFor(services, host, key) <==> key == HostKey(BoundHosts(services), host)
  {
    BindsIff(services, host);
    var dot := IndexOf(host, '.');
    var tail := host[dot..];
    forall t ensures LabelThenTail(host, t) <==> 0 < dot < |host| && t == tail {
      OneTail(host, t);
    }
    BindsIff(services, "*" + tail);
  }

  predicate Slashed(text: string) {
    text == "" || text[|text| - 1] == '/'
  }

  lemma {:induction false} CutStep(text: string)
    requires text != "" && Slashed(text)
    ensures var slash := IndexOf(text, '/');
            slash < |text| && Slashed(text[slash + 1..]) && Cut(text) == [text[..slash]] + Cut(text[slash + 1..])
  {
    var slash := IndexOf(text, '/');
    IndexOfAtMost(text, '/', |text| - 1);
    SlashedRest(text, slash);
  }

  lemma {:induction false} SlashedRest(text: string, i: nat)
    requires i < |text| && Slashed(text)
    ensures Slashed(text[i + 1..])
  {
    var rest := text[i + 1..];
    if rest != "" {
      assert rest[|rest| - 1] == text[|text| - 1];
    }
  }

  /** Texts that end in slashes begin with each other exactly when their cuts do. */
  lemma {:induction false} CutPrefix(a: string, b: string)
    requires Slashed(a) && Slashed(b)
    ensures HasPrefix(b, a) <==> Cut(a) <= Cut(b)
    decreases |a|
  {
    if a != "" && b != "" {
      CutStep(a);
      CutStep(b);
      var i, j := IndexOf(a, '/'), IndexOf(b, '/');
      CutPrefix(a[i + 1..], b[j + 1..]);
      HeadAndRest(a, b, i, j);
      PrefixHeads(a[..i], Cut(a[i + 1..]), b[..j], Cut(b[j + 1..]));
    }
  }

  lemma {:induction false} PrefixHeads(x: string, xs: seq<string>, y: string, ys: seq<string>)
    ensures [x] + xs <= [y] + ys <==> x == y && xs <= ys
  {
    var p, q := [x] + xs, [y] + ys;
    assert p[1..] == xs && q[1..] == ys;
    if x == y && xs <= ys {
      assert q[..|p|] == [y] + ys[..|xs|];
    }
    if p <= q {
      assert p[0] == q[0] && ys[..|xs|] == q[..|p|][1..];
    }
  }

  lemma {:induction false} HeadAndRest(a: string, b: string, i: nat, j: nat)
    requires i < |a| && j < |b| && a[i] == '/' && b[j] == '/' && '/' !in a[..i] && '/' !in b[..j]
    ensures HasPrefix(b, a) <==> a[..i] == b[..j] && HasPrefix(b[j + 1..], a[i + 1..])
  {
    if HasPrefix(b, a) {
      assert b[i] == a[i] && a[..i] == b[..|a|][..i] == b[..i];
      IndexOfIs(b, '/', i);
      IndexOfIs(b, '/', j);
      assert a[i + 1..] == b[..|a|][i + 1..] == b[j + 1..][..|a| - i - 1];
    }
    if a[..i] == b[..j] && HasPrefix(b[j + 1..], a[i + 1..]) {
      assert |a[..i]| == i && |b[..j]| == j;
      assert a == a[..i] + "/" + a[i + 1..];
      assert b[..|a|] == b[..j] + "/" + b[j + 1..][..|a| - i - 1];
    }
  }

  /** Matching with slashes appended is leading, segment by segment. */
  lemma {:induction false} MatchesIff(pathPrefix: string, path: string)
    ensures Matches(pathPrefix, path) <==> Leads(pathPrefix, path)
  {
    SlashEnded(pathPrefix);
    SlashEnded(path);
    CutPrefix(EnsureTrailingSlash(pathPrefix), EnsureTrailingSlash(path));
  }

  lemma {:induction false} SlashEnded(path: string)
    ensures Slashed(EnsureTrailingSlash(path)) && Segments(path) == Cut(EnsureTrailingSlash(path))
  {
    assert path != "" ==> path[|path| - 1..] == [path[|path| - 1]];
  }

  /** The same, as the lookup computes it. */
  ghost predicate FoundBest(services: Services, host: string, path: string, b: Binding) {
    var key := HostKey(BoundHosts(services), host);
    && Bound(services, key, b) && Matches(b.pathPrefix, path)
    && forall c :: Bound(services, key, c) && Matches(c.pathPrefix, path) ==> |c.pathPrefix| <= |b.pathPrefix|
  }

  lemma BestForIs(services: Services, host: string, path: string, b: Binding)
    ensures BestFor(services, host, path, b) <==> FoundBest(services, host, path, b)
  {
    var key := HostKey(BoundHosts(services), host);
    forall k ensures AnswersFor(services, host, k) <==> k == key {
      HostKeyAnswers(services, host, k);
    }
    forall c: Binding ensures Matches(c.pathPrefix, path) <==> Leads(c.pathPrefix, path) {
      MatchesIff(c.pathPrefix, path);
    }
  }

  lemma UnansweredIs(services: Services, host: string, path: string)
    ensures Unanswered(services, host, path) <==>
            forall b :: Bound(services, HostKey(BoundHosts(services), host), b) ==> !Matches(b.pathPrefix, path)
  {
    var key := HostKey(BoundHosts(services), host);
    forall k ensures AnswersFor(services, host, k) <==> k == key {
      HostKeyAnswers(services, host, k);
    }
    forall c: Binding ensures Matches(c.pathPrefix, path) <==> Leads(c.pathPrefix, path) {
      MatchesIff(c.pathPrefix, path);
    }
  }

  /**
   * Any index of the services answers with a longest prefix that leads the path,
   * among the bindings of the host itself if it has any, else of the wildcard
   * above it, else of the catch-all; and with nothing only when none of those does.
   */
  lemma RoutesToLongest(index: Index, services: Services, host: string, path: string)
    requires Indexes(index, services)
    ensures var found := ServiceFor(index, host, path);
            && (found.Some? ==> BestFor(services, host, path, found.value))
            && (found.None? ==> Unanswered(services, host, path))
  {
    LookupFindsBest(index, services, host, path);
    if ServiceFor(index, host, path).Some? {
      BestForIs(services, host, path, ServiceFor(index, host, path).value);
    } else {
      UnansweredIs(services, host, path);
    }
  }

  lemma LookupFindsBest(index: Index, services: Services, host: string, path: string)
    requires Indexes(index, services)
    ensures var found := ServiceFor(index, host, path);
            && (found.Some? ==> FoundBest(services, host, path, found.value))
            && (found.None? ==> forall b :: Bound(services, HostKey(BoundHosts(services), host), b) ==> !Matches(b.pathPrefix, path))
  {
    IndexedHosts(index, services);
    var key := HostKey(index.Keys, host);
    if key in index {
      FirstIsLongest(index[key], (b: Binding) => Matches(b.pathPrefix, path));
      forall b | Bound(services, key, b) ensures b in index[key] {
        assert Listed(index, key, b);
      }
      var found := FirstMatch(index[key], path);
      if found.Some? {
        assert Listed(index, key, found.value);
      }
    } else {
      forall b ensures Bound(services, key, b) <==> Listed(index, key, b) { }
    }
  }

  /** Without conflicts there is one right answer, so neither map iteration nor an unstable sort can change it. */
  lemma OrderIrrelevant(services: Services, first: Index, second: Index, host: string, path: string)
    requires NoConflict(services) && Indexes(first, services) && Indexes(second, services)
    ensures ServiceFor(first, host, path) == ServiceFor(second, host, path)
  {
    LookupFindsBest(first, services, host, path);
    LookupFindsBest(second, services, host, path);
    var a, b := ServiceFor(first, host, path), ServiceFor(second, host, path);
    if a.Some? && b.Some? {
      SameLengthSamePrefix(a.value.pathPrefix, b.value.pathPrefix, path);
    }
  }

  /** At most one service's binding is the right answer. */
  ghost predicate OneBest(services: Services, host: string, path: string) {
    forall a, b :: BestFor(services, host, path, a) && BestFor(services, host, path, b) ==> a == b
  }

  /**
   * Every index of the services gives the same answer for a request if and only if
   * one binding is best for it: otherwise how the map was walked and how the sort
   * broke the tie decide.
   */
  lemma IndexesAgreeIff(services: Services, index: Index, host: string, path: string)
    requires Indexes(index, services)
    ensures (forall other: Index :: Indexes(other, services) ==> ServiceFor(other, host, path) == ServiceFor(index, host, path))
            <==> OneBest(services, host, path)
  {
    if OneBest(services, host, path) {
      forall other: Index | Indexes(other, services) ensures ServiceFor(other, host, path) == ServiceFor(index, host, path) {
        OneAnswer(services, index, other, host, path);
      }
    } else {
      var a, b :| BestFor(services, host, path, a) && BestFor(services, host, path, b) && a != b;
      PromotedAnswers(services, index, host, path, a);
      PromotedAnswers(services, index, host, path, b);
    }
  }

  lemma OneAnswer(services: Services, first: Index, second: Index, host: string, path: string)
    requires OneBest(services, host, path) && Indexes(first, services) && Indexes(second, services)
    ensures ServiceFor(first, host, path) == ServiceFor(second, host, path)
  {
    LookupFindsBest(first, services, host, path);
    LookupFindsBest(second, services, host, path);
    var a, b := ServiceFor(first, host, path), ServiceFor(second, host, path);
    if a.Some? { BestForIs(services, host, path, a.value); }
    if b.Some? { BestForIs(services, host, path, b.value); }
  }

  /** Any best binding is the answer of some index of the services. */
  lemma PromotedAnswers(services: Services, index: Index, host: string, path: string, b: Binding)
    requires Indexes(index, services) && BestFor(services, host, path, b)
    ensures var key := HostKey(BoundHosts(services), host);
            key in index && Indexes(Promoted(index, key, b), services) && ServiceFor(Promoted(index, key, b), host, path) == Some(b)
  {
    var key := HostKey(BoundHosts(services), host);
    BestForIs(services, host, path, b);
    IndexedHosts(index, services);
    assert Listed(index, key, b);
    var l := index[key];
    var fits := (x: Binding) => Matches(x.pathPrefix, path);
    var longer := Above(l, |b.pathPrefix|);
    AboveFacts(l, |b.pathPrefix|);
    PromoteIndexes(services, index, key, b);
    var promoted := Promoted(index, key, b)[key];
    forall j | 0 <= j < |longer| ensures !fits(promoted[j]) {
      assert promoted[j] == longer[j] && longer[j] in longer;
      assert Listed(index, key, longer[j]);
    }
    assert promoted[|longer|] == b;
    FirstAt(promoted, fits, |longer|);
    assert Promoted(index, key, b).Keys == index.Keys;
  }

  /** The bindings of a list with a prefix longer than some length, and the others. */
  function Above(l: seq<Binding>, n: nat): seq<Binding> {
    if l == [] then [] else (if |l[0].pathPrefix| > n then [l[0]] else []) + Above(l[1..], n)
  }

  function NotAbove(l: seq<Binding>, n: nat): seq<Binding> {
    if l == [] then [] else (if |l[0].pathPrefix| > n then [] else [l[0]]) + NotAbove(l[1..], n)
  }

  lemma {:induction false} AboveFacts(l: seq<Binding>, n: nat)
    ensures forall x :: x in Above(l, n) <==> x in l && |x.pathPrefix| > n
    ensures forall x :: x in NotAbove(l, n) <==> x in l && |x.pathPrefix| <= n
  {
    if l != [] {
      AboveFacts(l[1..], n);
      assert l == [l[0]] + l[1..];
    }
  }

  lemma {:induction false} AboveSorted(l: seq<Binding>, n: nat)
    requires LongestFirst(l)
    ensures LongestFirst(Above(l, n)) && LongestFirst(NotAbove(l, n))
  {
    if l != [] {
      var rest := l[1..];
      AboveSorted(rest, n);
      AboveFacts(rest, n);
      forall i | 0 <= i < |rest| ensures |l[0].pathPrefix| >= |rest[i].pathPrefix| { }
      ConsSorted(l[0], Above(rest, n), rest);
      ConsSorted(l[0], NotAbove(rest, n), rest);
    }
  }

  lemma ConsSorted(b: Binding, l: seq<Binding>, all: seq<Binding>)
    requires LongestFirst(l) && (forall x :: x in l ==> x in all)
    requires forall i :: 0 <= i < |all| ==> |b.pathPrefix| >= |all[i].pathPrefix|
    ensures LongestFirst([b] + l) && [] + l == l
  {
    forall i | 0 <= i < |l| ensures |b.pathPrefix| >= |l[i].pathPrefix| {
      assert l[i] in l;
      var j :| 0 <= j < |all| && all[j] == l[i];
    }
  }

  /** The same index with one binding first among those of its length. */
  function Promoted(index: Index, key: string, b: Binding): Index
    requires key in index
  {
    index[key := Above(index[key], |b.pathPrefix|) + [b] + NotAbove(index[key], |b.pathPrefix|)]
  }

  lemma PromoteIndexes(services: Services, index: Index, key: string, b: Binding)
    requires Indexes(index, services) && Listed(index, key, b)
    ensures Indexes(Promoted(index, key, b), services)
  {
    var l, n := index[key], |b.pathPrefix|;
    AboveFacts(l, n);
    AboveSorted(l, n);
    var promoted := Above(l, n) + [b] + NotAbove(l, n);
    PromoteSorted(Above(l, n), b, NotAbove(l, n));
    forall x ensures x in promoted <==> x in l { }
    forall h, x ensures Listed(Promoted(index, key, b), h, x) <==> Listed(index, h, x) { }
  }

  lemma PromoteSorted(upper: seq<Binding>, b: Binding, lower: seq<Binding>)
    requires LongestFirst(upper) && LongestFirst(lower)
    requires (forall x :: x in upper ==> |x.pathPrefix| > |b.pathPrefix|) && (forall x :: x in lower ==> |x.pathPrefix| <= |b.pathPrefix|)
    ensures LongestFirst(upper + [b] + lower)
  {
    var all := upper + [b] + lower;
    var n := |upper|;
    forall i, j | 0 <= i < j < |all| ensures |all[i].pathPrefix| >= |all[j].pathPrefix| {
      if i < n { assert all[i] == upper[i] && upper[i] in upper; }
      if j < n { assert all[j] == upper[j]; }
      if i > n { assert all[i] == lower[i - n - 1]; }
      if j > n { assert all[j] == lower[j - n - 1] && lower[j - n - 1] in lower; }
    }
  }

  lemma {:induction false} FirstAt(l: seq<Binding>, fits: Binding -> bool, i: nat)
    requires i < |l| && fits(l[i]) && forall j :: 0 <= j < i ==> !fits(l[j])
    ensures First(l, fits) == Some(l[i])
  {
    if i > 0 {
      FirstAt(l[1..], fits, i - 1);
    }
  }

  lemma {:induction false} NoneFirst(l: seq<Binding>, fits: Binding -> bool)
    requires forall j :: 0 <= j < |l| ==> !fits(l[j])
    ensures First(l, fits) == None
  {
    if l != [] {
      NoneFirst(l[1..], fits);
    }
  }

  // ---- The map itself ----

  /** Sorted as one would insert: in front of the first shorter prefix. */
  function InsertLongest(bindings: seq<Binding>, b: Binding): (r: seq<Binding>)
    ensures forall x :: x in r <==> x in bindings || x == b
    ensures r != []
  {
    if bindings == [] || |bindings[0].pathPrefix| < |b.pathPrefix| then [b] + bindings
    else [bindings[0]] + InsertLongest(bindings[1..], b)
  }

  lemma {:induction false} InsertKeepsOrder(bindings: seq<Binding>, b: Binding)
    requires LongestFirst(bindings)
    ensures LongestFirst(InsertLongest(bindings, b))
  {
    if bindings != [] && |bindings[0].pathPrefix| >= |b.pathPrefix| {
      var rest := InsertLongest(bindings[1..], b);
      InsertKeepsOrder(bindings[1..], b);
      forall i | 0 <= i < |rest| ensures |bindings[0].pathPrefix| >= |rest[i].pathPrefix| {
        assert rest[i] in rest;
        assert rest[i] in bindings[1..] || rest[i] == b;
      }
    }
  }

  method SortBindings(bindings: seq<Binding>) returns (sorted: seq<Binding>)
    ensures LongestFirst(sorted) && (forall b :: b in sorted <==> b in bindings)
    ensures bindings != [] ==> sorted != []
  {
    sorted := [];
    for i := 0 to |bindings|
      invariant LongestFirst(sorted) && (forall b :: b in sorted <==> b in bindings[..i])
      invariant i > 0 ==> sorted != []
    {
      assert bindings[..i + 1] == bindings[..i] + [bindings[i]];
      InsertKeepsOrder(sorted, bindings[i]);
      sorted := InsertLongest(sorted, bindings[i]);
    }
    assert bindings[..|bindings|] == bindings;
  }

  /** Appends one service's bindings, host by host and prefix by prefix. */
  method AddService(index: Index, service: Service) returns (after: Index)
    requires forall host :: host in index ==> index[host] != []
    ensures forall host :: host in after ==> after[host] != []
    ensures forall host, b :: Listed(after, host, b) <==>
              Listed(index, host, b) || (b.service == service.name && host in service.hosts && b.pathPrefix in service.pathPrefixes)
  {
    after := index;
    for i := 0 to |service.hosts|
      invariant forall host :: host in after ==> after[host] != []
      invariant forall host, b :: Listed(after, host, b) <==>
                  Listed(index, host, b) || (b.service == service.name && host in service.hosts[..i] && b.pathPrefix in service.pathPrefixes)
    {
      assert service.hosts[..i + 1] == service.hosts[..i] + [service.hosts[i]];
      after := AddHost(after, service.hosts[i], service);
    }
    assert service.hosts[..|service.hosts|] == service.hosts;
  }

  method AddHost(index: Index, host: string, service: Service) returns (after: Index)
    requires forall h :: h in index ==> index[h] != []
    ensures forall h :: h in after ==> after[h] != []
    ensures forall h, b :: Listed(after, h, b) <==>
              Listed(index, h, b) || (h == host && b.service == service.name && b.pathPrefix in service.pathPrefixes)
  {
    after := index;
    for i := 0 to |service.pathPrefixes|
      invariant forall h :: h in after ==> after[h] != []
      invariant forall h, b :: Listed(after, h, b) <==>
                  Listed(index, h, b) || (h == host && b.service == service.name && b.pathPrefix in service.pathPrefixes[..i])
    {
      assert service.pathPrefixes[..i + 1] == service.pathPrefixes[..i] + [service.pathPrefixes[i]];
      var bindings := if host in after then after[host] else [];
      after := after[host := bindings + [Binding(service.pathPrefixes[i], service.name)]];
    }
    assert service.pathPrefixes[..|service.pathPrefixes|] == service.pathPrefixes;
  }

  method SortIndex(index: Index) returns (sorted: Index)
    requires forall host :: host in index ==> index[host] != []
    ensures forall host :: host in sorted ==> sorted[host] != [] && LongestFirst(sorted[host])
    ensures forall host, b :: Listed(sorted, host, b) <==> Listed(index, host, b)
  {
    sorted := index;
    var rest := index.Keys;
    while rest != {}
      invariant rest <= index.Keys && sorted.Keys == index.Keys
      invariant forall host :: host in sorted ==> sorted[host] != [] && (host !in rest ==> LongestFirst(sorted[host]))
      invariant forall host :: host in rest ==> sorted[host] == index[host]
      invariant forall host, b :: Listed(sorted, host, b) <==> Listed(index, host, b)
      decreases |rest|
    {
      var host :| host in rest;
      var bindings := SortBindings(sorted[host]);
      sorted := sorted[host := bindings];
      rest := rest - {host};
    }
  }

  // ---- TLS options follow the root of the host ----

  const RootPath := "/"

  const DefaultTls := Tls(false, true)

  predicate ServesRoot(s: Service) {
    RootPath in s.pathPrefixes
  }

  /** Options are normalized before they get here: every prefix starts with a slash. */
  predicate Normalized(s: Service) {
    forall i :: 0 <= i < |s.pathPrefixes| ==> HasPrefix(s.pathPrefixes[i], RootPath)
  }

  predicate WellNamed(services: Services) {
    forall name :: name in services ==> services[name].name == name && Normalized(services[name])
  }

  /** The service that answers for the root of a service's first host. */
  function RootOf(index: Index, s: Service): Option<Binding> {
    ServiceFor(index, if s.hosts == [] then "" else s.hosts[0], RootPath)
  }

  function RootTls(services: Services, index: Index, s: Service): Tls {
    var root := RootOf(index, s);
    if root.Some? && root.value.service in services then services[root.value.service].tls else DefaultTls
  }

  function SyncedService(services: Services, index: Index, s: Service): Service {
    if ServesRoot(s) then s else s.(tls := RootTls(services, index, s))
  }

  /** Every service that does not serve the root has the TLS options of the one that does. */
  function Synced(services: Services, index: Index): Services {
    map name | name in services :: SyncedService(services, index, services[name])
  }

  /** Halfway through the copying: some services are still as they were. */
  ghost predicate SyncedExcept(before: Services, index: Index, services: Services, rest: set<string>) {
    services.Keys == before.Keys && forall name :: name in services ==>
      services[name] == if name in rest then before[name] else SyncedService(before, index, before[name])
  }

  /** What is copied then is what the root had before any copying. */
  lemma RootUnchanged(before: Services, index: Index, services: Services, rest: set<string>, s: Service)
    requires WellNamed(before) && Indexes(index, before) && SyncedExcept(before, index, services, rest)
    ensures SyncedService(services, index, s) == SyncedService(before, index, s)
  {
    if RootOf(index, s).Some? {
      RootServesRoot(before, index, s);
    }
  }

  lemma SyncStep(before: Services, index: Index, services: Services, rest: set<string>, name: string)
    requires WellNamed(before) && Indexes(index, before) && SyncedExcept(before, index, services, rest)
    requires name in rest && name in before
    ensures name in services
    ensures SyncedExcept(before, index, services[name := SyncedService(services, index, services[name])], rest - {name})
  {
    RootUnchanged(before, index, services, rest, before[name]);
  }

  lemma SyncedAll(before: Services, index: Index, services: Services)
    requires SyncedExcept(before, index, services, {})
    ensures services == Synced(before, index)
  {
  }

  /** Options play no part in routing. */
  lemma SyncedStaysIndexed(services: Services, index: Index)
    requires WellNamed(services) && Indexes(index, services)
    ensures WellNamed(Synced(services, index)) && Indexes(index, Synced(services, index))
  {
    var after := Synced(services, index);
    forall host, b ensures Bound(after, host, b) <==> Bound(services, host, b) { }
  }

  /** Whoever answers for a root serves the root, so its own options are never overwritten. */
  lemma RootServesRoot(services: Services, index: Index, s: Service)
    requires WellNamed(services) && Indexes(index, services) && RootOf(index, s).Some?
    ensures RootOf(index, s).value.service in services && ServesRoot(services[RootOf(index, s).value.service])
  {
    var b := RootOf(index, s).value;
    LookupFindsBest(index, services, if s.hosts == [] then "" else s.hosts[0], RootPath);
    var prefixes := services[b.service].pathPrefixes;
    var i :| 0 <= i < |prefixes| && prefixes[i] == b.pathPrefix;
    OnlyRootMatches(b.pathPrefix);
  }

  lemma OnlyRootMatches(prefix: string)
    requires HasPrefix(prefix, RootPath) && Matches(prefix, RootPath)
    ensures prefix == RootPath
  {
    assert |EnsureTrailingSlash(RootPath)| == 1;
    assert prefix[..1] == RootPath;
  }

  /**
   * After a rebuild each service that does not serve the root has the options its
   * host's root has now, or the defaults if nobody serves it; the others keep their
   * own; and rebuilding again changes nothing.
   */
  lemma SyncedLaw(services: Services, index: Index, name: string)
    requires WellNamed(services) && Indexes(index, services) && name in services
    ensures var after := Synced(services, index);
            && after[name] == services[name].(tls := after[name].tls)
            && ("/" in services[name].pathPrefixes ==> after[name].tls == services[name].tls)
            && ("/" !in services[name].pathPrefixes ==>
                  || (Unanswered(services, FirstHost(services[name]), "/") && after[name].tls == Tls(false, true))
                  || (exists b :: BestFor(services, FirstHost(services[name]), "/", b) && b.service in after && after[name].tls == after[b.service].tls))
            && Synced(after, index)[name] == after[name]
  {
    RoutesToLongest(index, services, FirstHost(services[name]), RootPath);
    if RootOf(index, services[name]).Some? {
      RootServesRoot(services, index, services[name]);
    }
  }

  function FirstHost(s: Service): (host: string)
    ensures |s.hosts| > 0 ==> host == s.hosts[0]
  {
    if s.hosts == [] then "" else s.hosts[0]
  }

  /** Without conflicts the options, too, do not depend on how the index came out. */
  lemma SyncOrderIrrelevant(services: Services, first: Index, second: Index)
    requires NoConflict(services) && Indexes(first, services) && Indexes(second, services)
    ensures Synced(services, first) == Synced(services, second)
  {
    forall name | name in services ensures Synced(services, first)[name] == Synced(services, second)[name] {
      var s := services[name];
      OrderIrrelevant(services, first, second, if s.hosts == [] then "" else s.hosts[0], RootPath);
    }
  }

  class RequestMap {
    var services: Services
    var requestServiceMap: Index

    ghost predicate Valid()
      reads this
    {
      WellNamed(services) && Indexes(requestServiceMap, services)
    }

    constructor ()
      ensures Valid() && services == map[]
    {
      services, requestServiceMap := map[], map[];
    }

    method Set(service: Service)
      requires Valid() && Normalized(service)
      modifies this
      ensures Valid() && services == Synced(old(services)[service.name := service], requestServiceMap)
    {
      services := services[service.name := service];
      UpdateRequestServiceMap();
    }

    method Remove(name: string)
      requires Valid()
      modifies this
      ensures Valid() && services == Synced(old(services) - {name}, requestServiceMap)
    {
      services := services - {name};
      UpdateRequestServiceMap();
    }

    /** Rebuilds the index from the services, in whatever order they come. */
    method UpdateRequestServiceMap()
      requires WellNamed(services)
      modifies this
      ensures Valid() && services == Synced(old(services), requestServiceMap)
    {
      var index: Index := map[];
      var rest := services.Keys;
      while rest != {}
        invariant rest <= services.Keys && services == old(services)
        invariant forall host :: host in index ==> index[host] != []
        invariant forall host, b :: Listed(index, host, b) <==> Bound(services, host, b) && b.service !in rest
        decreases |rest|
      {
        var name :| name in rest;
        index := AddService(index, services[name]);
        rest := rest - {name};
      }
      requestServiceMap := SortIndex(index);
      SyncTLSOptionsFromRootDomain();
    }

    method SyncTLSOptionsFromRootDomain()
      requires Valid()
      modifies this`services
      ensures Valid() && services == Synced(old(services), requestServiceMap)
    {
      SyncedStaysIndexed(services, requestServiceMap);
      services := SyncTLS(services, requestServiceMap);
    }

    /** The service already holding one of the wanted bindings, if another one does. */
    method CheckAvailability(name: string, hosts: seq<string>, pathPrefixes: seq<string>) returns (holder: Option<string>)
      requires Valid()
      ensures holder.None? <==> forall host, b :: Bound(services, host, b) && host in hosts && b.pathPrefix in pathPrefixes ==> b.service == name
      ensures holder.Some? ==>
                holder.value != name && exists host, b :: Bound(services, host, b) && host in hosts && b.pathPrefix in pathPrefixes && b.service == holder.value
    {
      for i := 0 to |hosts|
        invariant forall host, b :: Bound(services, host, b) && host in hosts[..i] && b.pathPrefix in pathPrefixes ==> b.service == name
      {
        assert hosts[..i + 1] == hosts[..i] + [hosts[i]];
        var bindings := if hosts[i] in requestServiceMap then requestServiceMap[hosts[i]] else [];
        assert forall b :: b in bindings <==> Listed(requestServiceMap, hosts[i], b);
        var taken := HolderAmong(bindings, pathPrefixes, name);
        if taken.Some? {
          assert Bound(services, hosts[i], taken.value) && hosts[i] in hosts;
          return Some(taken.value.service);
        }
      }
      assert hosts[..|hosts|] == hosts;
      return None;
    }

    method ServiceForPath(host: string, path: string) returns (found: Option<Binding>)
      requires Valid()
      ensures found.Some? ==> BestFor(services, host, path, found.value)
      ensures found.None? ==> Unanswered(services, host, path)
      ensures found == ServiceFor(requestServiceMap, host, path)
    {
      RoutesToLongest(requestServiceMap, services, host, path);
      found := Lookup(requestServiceMap, host, path);
    }
  }

  /** Copies options service by service, in whatever order they come. */
  method SyncTLS(services: Services, index: Index) returns (after: Services)
    requires WellNamed(services) && Indexes(index, services)
    ensures after == Synced(services, index)
  {
    after := services;
    var rest := services.Keys;
    while rest != {}
      invariant rest <= services.Keys && SyncedExcept(services, index, after, rest)
      decreases |rest|
    {
      var name :| name in rest;
      SyncStep(services, index, after, rest, name);
      var service := SyncOne(after, index, after[name]);
      after := after[name := service];
      rest := rest - {name};
    }
    SyncedAll(services, index, after);
  }

  method SyncOne(services: Services, index: Index, service: Service) returns (synced: Service)
    ensures synced == SyncedService(services, index, service)
  {
    if ServesRoot(service) {
      return service;
    }
    var root := Lookup(index, if service.hosts == [] then "" else service.hosts[0], RootPath);
    if root.Some? && root.value.service in services {
      return service.(tls := services[root.value.service].tls);
    }
    return service.(tls := DefaultTls);
  }

  /** A binding of another service on one of the wanted prefixes. */
  method HolderAmong(bindings: seq<Binding>, pathPrefixes: seq<string>, name: string) returns (taken: Option<Binding>)
    ensures taken.None? <==> forall b :: b in bindings && b.pathPrefix in pathPrefixes ==> b.service == name
    ensures taken.Some? ==> taken.value in bindings && taken.value.pathPrefix in pathPrefixes && taken.value.service != name
  {
    for k := 0 to |pathPrefixes|
      invariant forall b :: b in bindings && b.pathPrefix in pathPrefixes[..k] ==> b.service == name
    {
      assert pathPrefixes[..k + 1] == pathPrefixes[..k] + [pathPrefixes[k]];
      for j := 0 to |bindings|
        invariant forall l :: 0 <= l < j && bindings[l].pathPrefix == pathPrefixes[k] ==> bindings[l].service == name
      {
        if pathPrefixes[k] == bindings[j].pathPrefix && bindings[j].service != name {
          assert bindings[j] in bindings;
          return Some(bindings[j]);
        }
      }
    }
    assert pathPrefixes[..|pathPrefixes|] == pathPrefixes;
    return None;
  }

  method Lookup(index: Index, host: string, path: string) returns (found: Option<Binding>)
    ensures found == ServiceFor(index, host, path)
  {
    var key := HostKey(index.Keys, host);
    if key !in index {
      return None;
    }
    found := Scan(index[key], path);
  }

  method Scan(bindings: seq<Binding>, path: string) returns (found: Option<Binding>)
    ensures found == FirstMatch(bindings, path)
  {
    var fits := (b: Binding) => Matches(b.pathPrefix, path);
    for i := 0 to |bindings|
      invariant forall j :: 0 <= j < i ==> !fits(bindings[j])
    {
      if fits(bindings[i]) {
        FirstAt(bindings, fits, i);
        return Some(bindings[i]);
      }
    }
    NoneFirst(bindings, fits);
    return None;
  }

  /** The availability check is exactly what keeps deployments free of conflicts. */
  lemma AvailableIffNoConflict(services: Services, service: Service)
    requires NoConflict(services) && forall name :: name in services ==> services[name].name == name
    ensures NoConflict(services[service.name := service]) <==>
            forall host, b :: Bound(services, host, b) && host in service.hosts && b.pathPrefix in service.pathPrefixes ==> b.service == service.name
  {
    var after := services[service.name := service];
    forall host, b ensures Bound(after, host, b) <==>
      if b.service == service.name then host in service.hosts && b.pathPrefix in service.pathPrefixes else Bound(services, host, b)
    {
    }
    if NoConflict(after) {
      forall host, b | Bound(services, host, b) && host in service.hosts && b.pathPrefix in service.pathPrefixes
        ensures b.service == service.name
      {
        if b.service != service.name {
          assert Bound(after, host, b) && Bound(after, host, Binding(b.pathPrefix, service.name));
        }
      }
    }
  }
}
