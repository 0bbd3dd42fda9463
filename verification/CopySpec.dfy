/** What `copyTLS` computes: all its possible outcomes, when the map order matters, and the
    function it is when the configuration is unambiguous. */
module CopySpec {
  import opened TLS

  /** No domain is configured without a provider. */
  predicate ProvidersNamed(domains: Domains) {
    forall d :: d in domains ==> domains[d] != ""
  }

  /** A domain and the domains it is a suffix of share their provider. */
  predicate SuffixesAgree(domains: Domains) {
    forall d, e :: d in domains && e in domains && HasSuffix(e, d) ==> domains[d] == domains[e]
  }

  predicate Unambiguous(domains: Domains) {
    ProvidersNamed(domains) && SuffixesAgree(domains)
  }

  ghost predicate OrderIrrelevant(domains: Domains, tls: seq<IngressTLS>) {
    forall r, r' :: CopyOutcome(domains, tls, r) && CopyOutcome(domains, tls, r') ==> r == r'
  }

  /** All hosts can be served by `p`. */
  ghost predicate Common(domains: Domains, hosts: seq<string>, p: string) {
    forall i :: 0 <= i < |hosts| ==> p in Providers(domains, hosts[i])
  }

  /** Two different hosts may be given different providers. */
  ghost predicate MayClash(domains: Domains, hosts: seq<string>) {
    exists i, j, p, q :: 0 <= i < |hosts| && 0 <= j < |hosts| && i != j && p != q
      && p in Providers(domains, hosts[i]) && q in Providers(domains, hosts[j])
  }

  ghost predicate NoCommon(domains: Domains, hosts: seq<string>) {
    forall p :: !Common(domains, hosts, p)
  }

  ghost predicate Settled(domains: Domains, hosts: seq<string>) {
    && !MayClash(domains, hosts)
    && forall p, q :: Common(domains, hosts, p) && Common(domains, hosts, q) ==> p == q
  }

  // ---- Matching ----

  /** The host ends in the domain; whatever comes in front of it. */
  ghost predicate Under(host: string, domain: string) {
    exists x: string :: host == x + domain
  }

  lemma EndsIn(host: string, domain: string)
    ensures HasSuffix(host, domain) <==> Under(host, domain)
  {
    if HasSuffix(host, domain) {
      assert host == host[..|host| - |domain|] + domain;
    }
    if Under(host, domain) {
      var x :| host == x + domain;
      assert host[|x|..] == domain;
    }
  }

  /** A domain manages itself and whatever ends in it, and serves it with its provider. */
  lemma SubdomainIsManaged(domains: Domains, d: string, x: string)
    requires d in domains
    ensures Managed(domains, x + d) && domains[d] in Providers(domains, x + d)
  {
    assert Under(x + d, d);
    EndsIn(x + d, d);
  }

  /** Nothing else is managed, and no other provider serves it. */
  lemma ManagedIff(domains: Domains, host: string, p: string)
    ensures Managed(domains, host) <==> exists d :: d in domains && Under(host, d)
    ensures p in Providers(domains, host) <==> exists d :: d in domains && Under(host, d) && p == domains[d]
  {
    forall d ensures HasSuffix(host, d) <==> Under(host, d) {
      EndsIn(host, d);
    }
  }

  // ---- Complaints ----

  /** All hosts, in the order in which they are looked at. */
  function AllHosts(tls: seq<IngressTLS>): seq<string> {
    if tls == [] then [] else AllHosts(tls[..|tls| - 1]) + tls[|tls| - 1].hosts
  }

  lemma {:induction false} ComplaintsAppend(domains: Domains, a: seq<string>, b: seq<string>)
    ensures HostComplaints(domains, a + b) == HostComplaints(domains, a) + HostComplaints(domains, b)
  {
    if b == [] {
      assert a + b == a;
    } else {
      var n := |b| - 1;
      ComplaintsAppend(domains, a, b[..n]);
      assert (a + b)[..|a + b| - 1] == a + b[..n];
    }
  }

  lemma {:induction false} ComplaintsOfAllHosts(domains: Domains, tls: seq<IngressTLS>)
    ensures Complaints(domains, tls) == HostComplaints(domains, AllHosts(tls))
  {
    if tls != [] {
      ComplaintsOfAllHosts(domains, tls[..|tls| - 1]);
      ComplaintsAppend(domains, AllHosts(tls[..|tls| - 1]), tls[|tls| - 1].hosts);
    }
  }

  /** `log` complains of the hosts at the positions `at`, which are those of all unmanaged hosts. */
  ghost predicate ComplainedAt(domains: Domains, hosts: seq<string>, log: seq<Recorded>, at: seq<nat>) {
    && |at| == |log| && Increasing(at, |hosts|)
    && (forall k :: 0 <= k < |at| ==> log[k] == Unmanaged(hosts[at[k]]) && !Managed(domains, hosts[at[k]]))
    && (forall i: nat :: i < |hosts| && !Managed(domains, hosts[i]) ==> i in at)
  }

  lemma ComplainOneMore(domains: Domains, front: seq<string>, host: string, log: seq<Recorded>, at: seq<nat>)
    requires ComplainedAt(domains, front, log, at) && !Managed(domains, host)
    ensures ComplainedAt(domains, front + [host], log + [Unmanaged(host)], at + [|front|])
  {
    var hosts, at' := front + [host], at + [|front|];
    forall i: nat | i < |hosts| && !Managed(domains, hosts[i]) ensures i in at' {
      if i < |front| {
        assert i in at;
      } else {
        assert at'[|at|] == i;
      }
    }
  }

  lemma ComplainNoMore(domains: Domains, front: seq<string>, host: string, log: seq<Recorded>, at: seq<nat>)
    requires ComplainedAt(domains, front, log, at) && Managed(domains, host)
    ensures ComplainedAt(domains, front + [host], log, at)
  {
    var hosts := front + [host];
    forall i: nat | i < |hosts| && !Managed(domains, hosts[i]) ensures i in at {
      assert i < |front| && front[i] == hosts[i];
    }
  }

  lemma NextComplaint(domains: Domains, front: seq<string>, host: string, at: seq<nat>) returns (at': seq<nat>)
    requires ComplainedAt(domains, front, HostComplaints(domains, front), at)
    ensures ComplainedAt(domains, front + [host], HostComplaints(domains, front + [host]), at')
  {
    assert (front + [host])[..|front|] == front;
    if Managed(domains, host) {
      ComplainNoMore(domains, front, host, HostComplaints(domains, front), at);
      at' := at;
    } else {
      ComplainOneMore(domains, front, host, HostComplaints(domains, front), at);
      at' := at + [|front|];
    }
  }

  lemma {:induction false} HostComplaintsAreExact(domains: Domains, hosts: seq<string>) returns (at: seq<nat>)
    ensures ComplainedAt(domains, hosts, HostComplaints(domains, hosts), at)
  {
    if hosts == [] {
      at := NoComplaint(domains);
    } else {
      at := HostComplaintsAreExact(domains, hosts[..|hosts| - 1]);
      at := NextComplaint(domains, hosts[..|hosts| - 1], hosts[|hosts| - 1], at);
      assert hosts[..|hosts| - 1] + [hosts[|hosts| - 1]] == hosts;
    }
  }

  lemma NoComplaint(domains: Domains) returns (at: seq<nat>)
    ensures ComplainedAt(domains, [], HostComplaints(domains, []), at)
  {
    at := [];
  }

  /** The recorder is told of exactly the unmanaged hosts, each time one is listed, in order. */
  lemma ComplaintsAreExact(domains: Domains, tls: seq<IngressTLS>) returns (at: seq<nat>)
    ensures ComplainedAt(domains, AllHosts(tls), Complaints(domains, tls), at)
  {
    ComplaintsOfAllHosts(domains, tls);
    at := HostComplaintsAreExact(domains, AllHosts(tls));
  }

  // ---- Filtering ----

  lemma {:induction false} KeepNothing(domains: Domains, tls: seq<IngressTLS>)
    ensures FilterTLS(domains, tls) == [] <==> ManagedHosts(domains, tls) == []
  {
    if tls != [] {
      KeepNothing(domains, tls[..|tls| - 1]);
    }
  }

  lemma {:induction false} KeepIdempotent(domains: Domains, hosts: seq<string>)
    ensures Keep(domains, Keep(domains, hosts)) == Keep(domains, hosts)
  {
    if hosts != [] {
      var n := |hosts| - 1;
      KeepIdempotent(domains, hosts[..n]);
      var kept := Keep(domains, hosts);
      if Managed(domains, hosts[n]) {
        assert kept[..|kept| - 1] == Keep(domains, hosts[..n]);
      } else {
        assert kept == Keep(domains, hosts[..n]);
      }
    }
  }

  lemma {:induction false} FilterIdempotent(domains: Domains, tls: seq<IngressTLS>)
    ensures FilterTLS(domains, FilterTLS(domains, tls)) == FilterTLS(domains, tls)
    ensures ManagedHosts(domains, FilterTLS(domains, tls)) == ManagedHosts(domains, tls)
  {
    if tls != [] {
      var n := |tls| - 1;
      FilterIdempotent(domains, tls[..n]);
      KeepIdempotent(domains, tls[n].hosts);
      var out := FilterTLS(domains, tls);
      if Keep(domains, tls[n].hosts) != [] {
        assert out[..|out| - 1] == FilterTLS(domains, tls[..n]);
      } else {
        assert out == FilterTLS(domains, tls[..n]);
        assert ManagedHosts(domains, tls) == ManagedHosts(domains, tls[..n]);
      }
    }
  }

  /** `at` lists the positions of a filtered sequence in the sequence it was filtered from. */
  ghost predicate Increasing(at: seq<nat>, bound: nat) {
    && (forall k :: 0 <= k < |at| ==> at[k] < bound)
    && (forall k :: 0 < k < |at| ==> at[k - 1] < at[k])
  }

  ghost predicate KeptAt(domains: Domains, hosts: seq<string>, kept: seq<string>, at: seq<nat>) {
    && |at| == |kept| && Increasing(at, |hosts|)
    && (forall k :: 0 <= k < |at| ==> kept[k] == hosts[at[k]] && Managed(domains, kept[k]))
    && (forall i: nat :: i < |hosts| && Managed(domains, hosts[i]) ==> i in at)
  }

  ghost predicate EntryKept(domains: Domains, from: IngressTLS, to: IngressTLS) {
    && to.secretName == from.secretName && to.hosts != []
    && exists at :: KeptAt(domains, from.hosts, to.hosts, at)
  }

  ghost predicate FilteredAt(domains: Domains, tls: seq<IngressTLS>, out: seq<IngressTLS>, at: seq<nat>) {
    && |at| == |out| && Increasing(at, |tls|)
    && (forall k :: 0 <= k < |at| ==> EntryKept(domains, tls[at[k]], out[k]))
    && (forall i: nat, h :: i < |tls| && h in tls[i].hosts && Managed(domains, h) ==> i in at)
  }

  lemma KeepOneMore(domains: Domains, front: seq<string>, host: string, kept: seq<string>, at: seq<nat>)
    requires KeptAt(domains, front, kept, at) && Managed(domains, host)
    ensures KeptAt(domains, front + [host], kept + [host], at + [|front|])
  {
    var hosts, at' := front + [host], at + [|front|];
    forall i: nat | i < |hosts| && Managed(domains, hosts[i]) ensures i in at' {
      if i < |front| {
        assert i in at;
      } else {
        assert at'[|at|] == i;
      }
    }
  }

  lemma DropOneMore(domains: Domains, front: seq<string>, host: string, kept: seq<string>, at: seq<nat>)
    requires KeptAt(domains, front, kept, at) && !Managed(domains, host)
    ensures KeptAt(domains, front + [host], kept, at)
  {
    var hosts := front + [host];
    forall i: nat | i < |hosts| && Managed(domains, hosts[i]) ensures i in at {
      assert i < |front| && front[i] == hosts[i];
    }
  }

  /** The hosts kept of one entry are its managed hosts, all of them, in order. */
  lemma {:induction false} KeepIsExact(domains: Domains, hosts: seq<string>) returns (at: seq<nat>)
    ensures KeptAt(domains, hosts, Keep(domains, hosts), at)
  {
    if hosts == [] {
      at := [];
    } else {
      var front, host := hosts[..|hosts| - 1], hosts[|hosts| - 1];
      at := KeepIsExact(domains, front);
      if Managed(domains, host) {
        KeepOneMore(domains, front, host, Keep(domains, front), at);
        at := at + [|front|];
      } else {
        DropOneMore(domains, front, host, Keep(domains, front), at);
        assert Keep(domains, hosts) == Keep(domains, front);
      }
      assert hosts == front + [host];
    }
  }

  lemma FilterOneMore(
    domains: Domains, front: seq<IngressTLS>, from: IngressTLS, out: seq<IngressTLS>, to: IngressTLS, at: seq<nat>)
    requires FilteredAt(domains, front, out, at) && EntryKept(domains, from, to)
    ensures FilteredAt(domains, front + [from], out + [to], at + [|front|])
  {
    var tls, at' := front + [from], at + [|front|];
    forall i: nat, h | i < |tls| && h in tls[i].hosts && Managed(domains, h) ensures i in at' {
      if i < |front| {
        assert h in front[i].hosts && i in at;
      } else {
        assert at'[|at|] == i;
      }
    }
  }

  lemma FilterDropOne(domains: Domains, front: seq<IngressTLS>, from: IngressTLS, out: seq<IngressTLS>, at: seq<nat>)
    requires FilteredAt(domains, front, out, at) && forall h :: h in from.hosts ==> !Managed(domains, h)
    ensures FilteredAt(domains, front + [from], out, at)
  {
    var tls := front + [from];
    forall i: nat, h | i < |tls| && h in tls[i].hosts && Managed(domains, h) ensures i in at {
      assert i < |front| && h in front[i].hosts;
    }
  }

  lemma EntryIsKept(domains: Domains, from: IngressTLS)
    ensures var kept := Keep(domains, from.hosts);
      if kept == [] then forall h :: h in from.hosts ==> !Managed(domains, h)
      else EntryKept(domains, from, IngressTLS(kept, from.secretName))
  {
    KeptAreManaged(domains, from.hosts);
    var at := KeepIsExact(domains, from.hosts);
    assert forall h :: h in from.hosts && Managed(domains, h) ==> h in Keep(domains, from.hosts);
  }

  /** The list copied keeps the entries with a managed host, in order, under their secret names,
      each with exactly its managed hosts. */
  lemma {:induction false} FilterIsExact(domains: Domains, tls: seq<IngressTLS>) returns (at: seq<nat>)
    ensures FilteredAt(domains, tls, FilterTLS(domains, tls), at)
  {
    if tls == [] {
      at := [];
    } else {
      var front, last := tls[..|tls| - 1], tls[|tls| - 1];
      at := FilterIsExact(domains, front);
      at := FilterNext(domains, front, last, at);
      assert tls == front + [last];
    }
  }

  lemma FilterNext(domains: Domains, front: seq<IngressTLS>, last: IngressTLS, at: seq<nat>) returns (at': seq<nat>)
    requires FilteredAt(domains, front, FilterTLS(domains, front), at)
    ensures FilteredAt(domains, front + [last], FilterTLS(domains, front + [last]), at')
  {
    var kept := Keep(domains, last.hosts);
    assert (front + [last])[..|front|] == front;
    EntryIsKept(domains, last);
    if kept == [] {
      FilterDropOne(domains, front, last, FilterTLS(domains, front), at);
      assert FilterTLS(domains, front + [last]) == FilterTLS(domains, front);
      at' := at;
    } else {
      FilterOneMore(domains, front, last, FilterTLS(domains, front), IngressTLS(kept, last.secretName), at);
      at' := at + [|front|];
    }
  }

  // ---- All outcomes ----

  lemma {:induction false} SteadyPicks(picks: seq<string>, i: nat, j: nat)
    requires NoConflict(picks) && i <= j < |picks|
    requires forall k :: 0 <= k < |picks| ==> picks[k] != ""
    ensures picks[i] == picks[j]
    decreases j - i
  {
    if i < j {
      SteadyPicks(picks, i, j - 1);
    }
  }

  lemma NamedPicks(domains: Domains, hosts: seq<string>, picks: seq<string>)
    requires ProvidersNamed(domains) && ValidPicks(domains, hosts, picks)
    ensures forall k :: 0 <= k < |picks| ==> picks[k] != ""
  {}

  /** A copy succeeds with exactly the providers that all managed hosts have in common. */
  lemma SuccessOutcomes(domains: Domains, tls: seq<IngressTLS>, r: CopyResult)
    requires ProvidersNamed(domains) && ManagedHosts(domains, tls) != []
    ensures CopyOutcome(domains, tls, r) && r != NOTHING
       <==> r.tls == FilterTLS(domains, tls) && Common(domains, ManagedHosts(domains, tls), r.provider)
  {
    var hosts := ManagedHosts(domains, tls);
    KeepNothing(domains, tls);
    if CopyOutcome(domains, tls, r) && r != NOTHING {
      var picks :| ValidPicks(domains, hosts, picks) && r == Judge(domains, tls, picks);
      NamedPicks(domains, hosts, picks);
      forall i | 0 <= i < |hosts| ensures r.provider in Providers(domains, hosts[i]) {
        SteadyPicks(picks, i, |picks| - 1);
      }
    }
    if r.tls == FilterTLS(domains, tls) && Common(domains, hosts, r.provider) {
      var picks := seq(|hosts|, _ => r.provider);
      assert ValidPicks(domains, hosts, picks) && NoConflict(picks);
      assert r == Judge(domains, tls, picks);
    }
  }

  /** A copy can end with nothing exactly when no host is managed or two hosts may clash. */
  lemma EmptyOutcome(domains: Domains, tls: seq<IngressTLS>)
    requires ProvidersNamed(domains)
    ensures CopyOutcome(domains, tls, NOTHING)
       <==> ManagedHosts(domains, tls) == [] || MayClash(domains, ManagedHosts(domains, tls))
  {
    var hosts := ManagedHosts(domains, tls);
    KeepNothing(domains, tls);
    if hosts == [] {
      assert ValidPicks(domains, hosts, []) && NoConflict([]);
      assert Judge(domains, tls, []) == NOTHING;
    } else if MayClash(domains, hosts) {
      ClashAborts(domains, tls);
    } else if CopyOutcome(domains, tls, NOTHING) {
      var picks :| ValidPicks(domains, hosts, picks) && NOTHING == Judge(domains, tls, picks);
      ConflictIsClash(domains, hosts, picks);
    }
  }

  lemma ConflictIsClash(domains: Domains, hosts: seq<string>, picks: seq<string>)
    requires ProvidersNamed(domains) && ValidPicks(domains, hosts, picks) && !NoConflict(picks)
    ensures MayClash(domains, hosts)
  {
    var i :| 0 < i < |picks| && !(picks[i - 1] == "" || picks[i] == picks[i - 1]);
    assert picks[i - 1] in Providers(domains, hosts[i - 1]) && picks[i] in Providers(domains, hosts[i]);
  }

  lemma ClashAborts(domains: Domains, tls: seq<IngressTLS>)
    requires ProvidersNamed(domains) && MayClash(domains, ManagedHosts(domains, tls))
    ensures CopyOutcome(domains, tls, NOTHING)
  {
    var hosts := ManagedHosts(domains, tls);
    var i, j, p, q :| 0 <= i < |hosts| && 0 <= j < |hosts| && i != j && p != q
      && p in Providers(domains, hosts[i]) && q in Providers(domains, hosts[j]);
    ManagedHostsAreManaged(domains, tls);
    var any := ManagedHostsArePicked(domains, hosts);
    var picks := any[i := p][j := q];
    assert ValidPicks(domains, hosts, picks);
    NamedPicks(domains, hosts, picks);
    if NoConflict(picks) {
      SteadyPicks(picks, if i < j then i else j, if i < j then j else i);
    }
    assert Judge(domains, tls, picks) == NOTHING;
  }

  lemma OnlyOutcomes(domains: Domains, tls: seq<IngressTLS>, r: CopyResult)
    requires CopyOutcome(domains, tls, r)
    ensures r == NOTHING || r.tls == FilterTLS(domains, tls)
  {
    var picks :| ValidPicks(domains, ManagedHosts(domains, tls), picks) && r == Judge(domains, tls, picks);
  }

  // ---- When the order of the map is irrelevant ----

  /** For one list: exactly when no host is managed, or all choices of provider agree, or no
      provider can serve all hosts. */
  lemma OrderIrrelevantIff(domains: Domains, tls: seq<IngressTLS>)
    requires ProvidersNamed(domains)
    ensures var hosts := ManagedHosts(domains, tls);
      OrderIrrelevant(domains, tls) <==> hosts == [] || NoCommon(domains, hosts) || Settled(domains, hosts)
  {
    var hosts := ManagedHosts(domains, tls);
    var out := FilterTLS(domains, tls);
    KeepNothing(domains, tls);
    EmptyOutcome(domains, tls);
    if hosts != [] {
      forall r ensures CopyOutcome(domains, tls, r) && r != NOTHING
                  <==> r.tls == out && Common(domains, hosts, r.provider) {
        SuccessOutcomes(domains, tls, r);
      }
      forall p | Common(domains, hosts, p) ensures CopyOutcome(domains, tls, CopyResult(out, p)) {
        SuccessOutcomes(domains, tls, CopyResult(out, p));
      }
    } else {
      forall r | CopyOutcome(domains, tls, r) ensures r == NOTHING {
        var picks :| ValidPicks(domains, hosts, picks) && r == Judge(domains, tls, picks);
        assert picks == [];
      }
    }
  }

  /** For a whole configuration: exactly when overlapping domains share their provider. */
  lemma OrderIrrelevantForAll(domains: Domains)
    ensures (forall tls :: OrderIrrelevant(domains, tls)) <==> SuffixesAgree(domains)
  {
    if SuffixesAgree(domains) {
      forall tls ensures OrderIrrelevant(domains, tls) {
        UniquePicks(domains, tls);
      }
    } else {
      var d, e :| d in domains && e in domains && HasSuffix(e, d) && domains[d] != domains[e];
      AmbiguousHost(domains, d, e);
    }
  }

  lemma AmbiguousHost(domains: Domains, d: string, e: string)
    requires d in domains && e in domains && HasSuffix(e, d) && domains[d] != domains[e]
    ensures exists tls :: !OrderIrrelevant(domains, tls)
  {
    var tls := [IngressTLS([e], "")];
    OneHostManaged(domains, e, tls);
    assert domains[d] in Providers(domains, e) && domains[e] in Providers(domains, e);
    var r, r' := Judge(domains, tls, [domains[d]]), Judge(domains, tls, [domains[e]]);
    assert ValidPicks(domains, [e], [domains[d]]) && ValidPicks(domains, [e], [domains[e]]);
    assert CopyOutcome(domains, tls, r) && CopyOutcome(domains, tls, r') && r != r';
    assert !OrderIrrelevant(domains, tls);
  }

  lemma OneHostManaged(domains: Domains, e: string, tls: seq<IngressTLS>)
    requires e in domains && |tls| == 1 && tls[0].hosts == [e]
    ensures HasSuffix(e, e) && ManagedHosts(domains, tls) == [e]
    ensures FilterTLS(domains, tls) == [IngressTLS([e], tls[0].secretName)]
  {
    assert e[0..] == e && HasSuffix(e, e);
    assert tls[..0] == [] && [e][..0] == [];
    assert Keep(domains, [e]) == [e];
  }

  lemma OneProvider(domains: Domains, host: string, p: string, q: string)
    requires SuffixesAgree(domains)
    requires p in Providers(domains, host) && q in Providers(domains, host)
    ensures p == q
  {
    var d :| d in domains && HasSuffix(host, d) && domains[d] == p;
    var e :| e in domains && HasSuffix(host, e) && domains[e] == q;
    if |d| <= |e| {
      assert e[|e| - |d|..] == host[|host| - |d|..];
    } else {
      assert d[|d| - |e|..] == host[|host| - |e|..];
    }
  }

  lemma UniquePicks(domains: Domains, tls: seq<IngressTLS>)
    requires SuffixesAgree(domains)
    ensures OrderIrrelevant(domains, tls)
  {
    var hosts := ManagedHosts(domains, tls);
    forall picks, picks' | ValidPicks(domains, hosts, picks) && ValidPicks(domains, hosts, picks')
      ensures picks == picks'
    {
      forall i | 0 <= i < |hosts| ensures picks[i] == picks'[i] {
        OneProvider(domains, hosts[i], picks[i], picks'[i]);
      }
    }
  }

  // ---- The function it then is ----

  ghost predicate Agree(domains: Domains, hosts: seq<string>) {
    forall i, j :: 0 <= i < |hosts| && 0 <= j < |hosts|
      ==> Providers(domains, hosts[i]) == Providers(domains, hosts[j])
  }

  ghost function ProviderOf(domains: Domains, host: string): string {
    if Providers(domains, host) == {} then "" else var p :| p in Providers(domains, host); p
  }

  ghost function Copy(domains: Domains, tls: seq<IngressTLS>): CopyResult {
    var hosts := ManagedHosts(domains, tls);
    if hosts != [] && Agree(domains, hosts) then
      CopyResult(FilterTLS(domains, tls), ProviderOf(domains, hosts[0]))
    else NOTHING
  }

  /** Whatever order the domains are visited in, an unambiguous configuration has one outcome. */
  lemma CopyRefines(domains: Domains, tls: seq<IngressTLS>, r: CopyResult)
    requires Unambiguous(domains)
    ensures CopyOutcome(domains, tls, r) <==> r == Copy(domains, tls)
  {
    var hosts := ManagedHosts(domains, tls);
    ManagedHostsAreManaged(domains, tls);
    var picks := ManagedHostsArePicked(domains, hosts);
    assert CopyOutcome(domains, tls, Judge(domains, tls, picks));
    UniquePicks(domains, tls);
    JudgeIsCopy(domains, tls, picks);
  }

  lemma JudgeIsCopy(domains: Domains, tls: seq<IngressTLS>, picks: seq<string>)
    requires Unambiguous(domains) && ValidPicks(domains, ManagedHosts(domains, tls), picks)
    ensures Judge(domains, tls, picks) == Copy(domains, tls)
  {
    var hosts := ManagedHosts(domains, tls);
    forall i | 0 <= i < |hosts| ensures Providers(domains, hosts[i]) == {picks[i]} {
      forall p | p in Providers(domains, hosts[i]) ensures p == picks[i] {
        OneProvider(domains, hosts[i], p, picks[i]);
      }
    }
    NamedPicks(domains, hosts, picks);
    if hosts == [] {
      KeepNothing(domains, tls);
    } else if NoConflict(picks) {
      forall i | 0 <= i < |hosts| ensures picks[i] == picks[|hosts| - 1] {
        SteadyPicks(picks, i, |hosts| - 1);
      }
      assert Agree(domains, hosts);
    } else {
      var i :| 0 < i < |picks| && !(picks[i - 1] == "" || picks[i] == picks[i - 1]);
      assert picks[i] in Providers(domains, hosts[i]) && picks[i] !in Providers(domains, hosts[i - 1]);
    }
  }

  ghost predicate NoneManaged(domains: Domains, tls: seq<IngressTLS>) {
    forall h :: !Listed(domains, tls, h)
  }

  ghost predicate ProvidersDiffer(domains: Domains, tls: seq<IngressTLS>) {
    exists h, h' :: Listed(domains, tls, h) && Listed(domains, tls, h')
          && ProviderOf(domains, h) != ProviderOf(domains, h')
  }

  /** Nothing is copied exactly when no host is managed or two managed hosts need different providers. */
  lemma CopyNothing(domains: Domains, tls: seq<IngressTLS>)
    requires Unambiguous(domains)
    ensures Copy(domains, tls) == NOTHING <==> NoneManaged(domains, tls) || ProvidersDiffer(domains, tls)
    ensures Copy(domains, tls) != NOTHING ==> Copy(domains, tls).tls == FilterTLS(domains, tls) != []
  {
    var hosts := ManagedHosts(domains, tls);
    KeepNothing(domains, tls);
    NoManagedHosts(domains, tls);
    if hosts != [] {
      AgreeUnlessProvidersDiffer(domains, tls);
    } else {
      assert !ProvidersDiffer(domains, tls);
    }
  }

  lemma NoManagedHosts(domains: Domains, tls: seq<IngressTLS>)
    ensures ManagedHosts(domains, tls) == [] <==> NoneManaged(domains, tls)
  {
    var hosts := ManagedHosts(domains, tls);
    ManagedHostsAreManaged(domains, tls);
    if hosts != [] {
      assert hosts[0] in hosts;
    } else {
      assert forall h :: h !in hosts;
    }
  }

  lemma AgreeUnlessProvidersDiffer(domains: Domains, tls: seq<IngressTLS>)
    requires Unambiguous(domains)
    ensures Agree(domains, ManagedHosts(domains, tls)) <==> !ProvidersDiffer(domains, tls)
  {
    var hosts := ManagedHosts(domains, tls);
    ManagedHostsAreManaged(domains, tls);
    if !Agree(domains, hosts) {
      var i, j :| 0 <= i < |hosts| && 0 <= j < |hosts| && Providers(domains, hosts[i]) != Providers(domains, hosts[j]);
      assert Listed(domains, tls, hosts[i]) && Listed(domains, tls, hosts[j]);
      OneProviderOf(domains, hosts[i]);
      OneProviderOf(domains, hosts[j]);
    }
    if ProvidersDiffer(domains, tls) {
      var h, h' :| Listed(domains, tls, h) && Listed(domains, tls, h')
        && ProviderOf(domains, h) != ProviderOf(domains, h');
      OneProviderOf(domains, h);
      OneProviderOf(domains, h');
      var i :| 0 <= i < |hosts| && hosts[i] == h;
      var j :| 0 <= j < |hosts| && hosts[j] == h';
      assert Providers(domains, hosts[i]) != Providers(domains, hosts[j]);
    }
  }

  lemma OneProviderOf(domains: Domains, host: string)
    requires SuffixesAgree(domains) && Managed(domains, host)
    ensures Providers(domains, host) == {ProviderOf(domains, host)}
  {
    var d :| d in domains && HasSuffix(host, d);
    assert domains[d] in Providers(domains, host);
    forall p | p in Providers(domains, host) ensures p == ProviderOf(domains, host) {
      OneProvider(domains, host, p, ProviderOf(domains, host));
    }
  }

  /** Copying a copied list changes nothing. */
  lemma CopyIdempotent(domains: Domains, tls: seq<IngressTLS>)
    ensures Copy(domains, Copy(domains, tls).tls) == Copy(domains, tls)
  {
    FilterIdempotent(domains, tls);
  }

  /** In every configuration with named providers, ambiguous or not: what a run copies has only
      hosts that the returned provider serves, and misses no managed host of its input. */
  lemma CopiedHostsServed(domains: Domains, tls: seq<IngressTLS>, r: CopyResult)
    requires ProvidersNamed(domains) && CopyOutcome(domains, tls, r) && r.tls != []
    ensures r.provider != ""
    ensures forall t, h :: t in r.tls && h in t.hosts ==> r.provider in Providers(domains, h)
    ensures forall h :: Listed(domains, tls, h) <==> Listed(domains, r.tls, h)
  {
    var hosts := ManagedHosts(domains, tls);
    OnlyOutcomes(domains, tls, r);
    KeepNothing(domains, tls);
    FilterIdempotent(domains, tls);
    ManagedHostsAreManaged(domains, tls);
    ManagedHostsAreManaged(domains, r.tls);
    SuccessOutcomes(domains, tls, r);
    assert hosts[0] in hosts && r.provider in Providers(domains, hosts[0]);
    forall t, h | t in r.tls && h in t.hosts ensures r.provider in Providers(domains, h) {
      FilteredHostsManaged(domains, tls, t, h);
      assert Listed(domains, r.tls, h);
      assert h in hosts;
    }
  }

  lemma FilteredHostsManaged(domains: Domains, tls: seq<IngressTLS>, t: IngressTLS, h: string)
    requires t in FilterTLS(domains, tls) && h in t.hosts
    ensures Managed(domains, h)
  {
    var out := FilterTLS(domains, tls);
    var at := FilterIsExact(domains, tls);
    var k :| 0 <= k < |out| && out[k] == t;
    var kept :| KeptAt(domains, tls[at[k]].hosts, out[k].hosts, kept);
  }
}
