/** Which TLS entries of an Ingress are copied to the control cluster, and under which DNS provider. */
module TLS {
  datatype IngressTLS = IngressTLS(hosts: seq<string>, secretName: string)
  datatype CopyResult = CopyResult(tls: seq<IngressTLS>, provider: string)

  /** What the event recorder is told; the recorder is an append-only log. */
  datatype Recorded = Unmanaged(host: string) | Conflict | Initiated | UpdateRequested

  /** The configured managed domains and their DNS providers. */
  type Domains = map<string, string>

  const NOTHING := CopyResult([], "")

  predicate HasSuffix(s: string, suffix: string) {
    |suffix| <= |s| && s[|s| - |suffix|..] == suffix
  }

  predicate Managed(domains: Domains, host: string) {
    exists d :: d in domains && HasSuffix(host, d)
  }

  function Providers(domains: Domains, host: string): set<string> {
    set d | d in domains && HasSuffix(host, d) :: domains[d]
  }

  function Keep(domains: Domains, hosts: seq<string>): seq<string> {
    if hosts == [] then [] else
      var host := hosts[|hosts| - 1];
      Keep(domains, hosts[..|hosts| - 1]) + if Managed(domains, host) then [host] else []
  }

  function FilterTLS(domains: Domains, tls: seq<IngressTLS>): seq<IngressTLS> {
    if tls == [] then [] else
      var last := tls[|tls| - 1];
      var kept := Keep(domains, last.hosts);
      FilterTLS(domains, tls[..|tls| - 1]) + if kept == [] then [] else [IngressTLS(kept, last.secretName)]
  }

  function ManagedHosts(domains: Domains, tls: seq<IngressTLS>): seq<string> {
    if tls == [] then [] else
      ManagedHosts(domains, tls[..|tls| - 1]) + Keep(domains, tls[|tls| - 1].hosts)
  }

  function HostComplaints(domains: Domains, hosts: seq<string>): seq<Recorded> {
    if hosts == [] then [] else
      var host := hosts[|hosts| - 1];
      HostComplaints(domains, hosts[..|hosts| - 1]) + if Managed(domains, host) then [] else [Unmanaged(host)]
  }

  function Complaints(domains: Domains, tls: seq<IngressTLS>): seq<Recorded> {
    if tls == [] then [] else
      Complaints(domains, tls[..|tls| - 1]) + HostComplaints(domains, tls[|tls| - 1].hosts)
  }

  // ---- What a run may return ----
  // Go visits a map in an order of its own for every host, so each managed host "picks" the
  // provider of any one of its matching domains.

  ghost predicate ValidPicks(domains: Domains, hosts: seq<string>, picks: seq<string>) {
    && |picks| == |hosts|
    && forall i :: 0 <= i < |hosts| ==> picks[i] in Providers(domains, hosts[i])
  }

  /** A non-empty provider is never followed by another one. */
  ghost predicate NoConflict(picks: seq<string>) {
    forall i :: 0 < i < |picks| ==> picks[i - 1] == "" || picks[i] == picks[i - 1]
  }

  function Last(picks: seq<string>): string {
    if picks == [] then "" else picks[|picks| - 1]
  }

  ghost function Judge(domains: Domains, tls: seq<IngressTLS>, picks: seq<string>): CopyResult {
    if NoConflict(picks) then CopyResult(FilterTLS(domains, tls), Last(picks)) else NOTHING
  }

  ghost predicate CopyOutcome(domains: Domains, tls: seq<IngressTLS>, r: CopyResult) {
    exists picks :: ValidPicks(domains, ManagedHosts(domains, tls), picks) && r == Judge(domains, tls, picks)
  }

  lemma {:induction false} ManagedHostsArePicked(domains: Domains, hosts: seq<string>) returns (picks: seq<string>)
    requires forall h :: h in hosts ==> Managed(domains, h)
    ensures ValidPicks(domains, hosts, picks)
  {
    picks := [];
    for i := 0 to |hosts|
      invariant ValidPicks(domains, hosts[..i], picks)
    {
      assert hosts[i] in hosts;
      var d :| d in domains && HasSuffix(hosts[i], d);
      assert domains[d] in Providers(domains, hosts[i]);
      picks := picks + [domains[d]];
    }
    assert hosts[..|hosts|] == hosts;
  }

  lemma {:induction false} KeptAreManaged(domains: Domains, hosts: seq<string>)
    ensures forall h :: h in Keep(domains, hosts) <==> h in hosts && Managed(domains, h)
  {
    if hosts != [] {
      KeptAreManaged(domains, hosts[..|hosts| - 1]);
      assert hosts == hosts[..|hosts| - 1] + [hosts[|hosts| - 1]];
    }
  }

  /** A managed host that some entry lists. */
  ghost predicate Listed(domains: Domains, tls: seq<IngressTLS>, host: string) {
    Managed(domains, host) && exists t :: t in tls && host in t.hosts
  }

  lemma {:induction false} ManagedHostsAreManaged(domains: Domains, tls: seq<IngressTLS>)
    ensures forall h :: h in ManagedHosts(domains, tls) <==> Listed(domains, tls, h)
  {
    if tls != [] {
      var last := tls[|tls| - 1];
      ManagedHostsAreManaged(domains, tls[..|tls| - 1]);
      KeptAreManaged(domains, last.hosts);
      assert forall t :: t in tls <==> t in tls[..|tls| - 1] || t == last;
    }
  }

  /** Steps of the loops, and the picks that finish an aborted run. */
  lemma {:induction false} PrefixOfManagedHosts(domains: Domains, tls: seq<IngressTLS>, i: nat, j: nat)
    requires i < |tls| && j <= |tls[i].hosts|
    ensures ManagedHosts(domains, tls[..i]) + Keep(domains, tls[i].hosts[..j]) <= ManagedHosts(domains, tls)
    decreases |tls|
  {
    var n := |tls| - 1;
    if i < n {
      PrefixOfManagedHosts(domains, tls[..n], i, j);
      assert tls[..n][..i] == tls[..i];
    } else {
      PrefixOfKeep(domains, tls[i].hosts, j);
    }
  }

  lemma {:induction false} PrefixOfKeep(domains: Domains, hosts: seq<string>, j: nat)
    requires j <= |hosts|
    ensures Keep(domains, hosts[..j]) <= Keep(domains, hosts)
    decreases |hosts|
  {
    if j < |hosts| {
      PrefixOfKeep(domains, hosts[..|hosts| - 1], j);
      assert hosts[..|hosts| - 1][..j] == hosts[..j];
    } else {
      assert hosts[..j] == hosts;
    }
  }

  lemma FinishPicks(domains: Domains, tls: seq<IngressTLS>, some: seq<string>, picks: seq<string>)
    returns (all: seq<string>)
    requires some <= ManagedHosts(domains, tls) && ValidPicks(domains, some, picks) && !NoConflict(picks)
    ensures ValidPicks(domains, ManagedHosts(domains, tls), all) && !NoConflict(all) && picks <= all
  {
    var hosts := ManagedHosts(domains, tls);
    ManagedHostsAreManaged(domains, tls);
    assert forall h :: h in hosts[|some|..] ==> h in hosts;
    var rest := ManagedHostsArePicked(domains, hosts[|some|..]);
    all := picks + rest;
    var i :| 0 < i < |picks| && !(picks[i - 1] == "" || picks[i] == picks[i - 1]);
    assert all[i] == picks[i] && all[i - 1] == picks[i - 1];
    forall k | 0 <= k < |hosts| ensures all[k] in Providers(domains, hosts[k]) {
      if k < |some| {
        assert hosts[k] == some[k];
      } else {
        assert hosts[|some|..][k - |some|] == hosts[k];
      }
    }
  }

  /** One more host: a picked one extends the picks, an unmanaged one adds a complaint. */
  lemma PickHost(domains: Domains, before: seq<string>, hosts: seq<string>, j: nat, picks: seq<string>, d: string)
    requires j < |hosts| && d in domains && HasSuffix(hosts[j], d)
    requires ValidPicks(domains, before + Keep(domains, hosts[..j]), picks)
    ensures Keep(domains, hosts[..j + 1]) == Keep(domains, hosts[..j]) + [hosts[j]]
    ensures HostComplaints(domains, hosts[..j + 1]) == HostComplaints(domains, hosts[..j])
    ensures ValidPicks(domains, before + Keep(domains, hosts[..j + 1]), picks + [domains[d]])
  {
    assert hosts[..j + 1][..j] == hosts[..j];
    assert before + Keep(domains, hosts[..j + 1]) == (before + Keep(domains, hosts[..j])) + [hosts[j]];
    assert domains[d] in Providers(domains, hosts[j]);
  }

  lemma SkipHost(domains: Domains, hosts: seq<string>, j: nat)
    requires j < |hosts| && !Managed(domains, hosts[j])
    ensures Keep(domains, hosts[..j + 1]) == Keep(domains, hosts[..j])
    ensures HostComplaints(domains, hosts[..j + 1]) == HostComplaints(domains, hosts[..j]) + [Unmanaged(hosts[j])]
  {
    assert hosts[..j + 1][..j] == hosts[..j];
  }

  lemma NextEntry(domains: Domains, tls: seq<IngressTLS>, i: nat)
    requires i < |tls|
    ensures var kept := Keep(domains, tls[i].hosts);
      FilterTLS(domains, tls[..i + 1])
        == FilterTLS(domains, tls[..i]) + if kept == [] then [] else [IngressTLS(kept, tls[i].secretName)]
    ensures ManagedHosts(domains, tls[..i + 1]) == ManagedHosts(domains, tls[..i]) + Keep(domains, tls[i].hosts)
    ensures Complaints(domains, tls[..i + 1]) == Complaints(domains, tls[..i]) + HostComplaints(domains, tls[i].hosts)
  {
    assert tls[..i + 1][..i] == tls[..i];
  }

  /** A run stops at host `j` of entry `i`: that host's pick is the first one to conflict. */
  ghost predicate StopsAt(domains: Domains, tls: seq<IngressTLS>, picks: seq<string>, i: nat, j: nat)
    requires i < |tls| && j < |tls[i].hosts|
  {
    var seen := |ManagedHosts(domains, tls[..i])| + |Keep(domains, tls[i].hosts[..j])|;
    && Managed(domains, tls[i].hosts[j]) && seen < |picks|
    && NoConflict(picks[..seen]) && !NoConflict(picks[..seen + 1])
  }

  /** A conflicting pick ends the run, whatever the remaining hosts would have picked. */
  lemma Aborted(domains: Domains, tls: seq<IngressTLS>, i: nat, j: nat, picks: seq<string>) returns (all: seq<string>)
    requires i < |tls| && j < |tls[i].hosts| && Managed(domains, tls[i].hosts[j])
    requires ValidPicks(domains, ManagedHosts(domains, tls[..i]) + Keep(domains, tls[i].hosts[..j + 1]), picks)
    requires !NoConflict(picks) && NoConflict(picks[..|picks| - 1])
    ensures ValidPicks(domains, ManagedHosts(domains, tls), all) && !NoConflict(all)
    ensures StopsAt(domains, tls, all, i, j)
  {
    PrefixOfManagedHosts(domains, tls, i, j + 1);
    all := FinishPicks(domains, tls, ManagedHosts(domains, tls[..i]) + Keep(domains, tls[i].hosts[..j + 1]), picks);
    assert tls[i].hosts[..j + 1][..j] == tls[i].hosts[..j];
    assert all[..|picks|] == picks && all[..|picks| - 1] == picks[..|picks| - 1];
  }

  lemma ConflictingPick(picks: seq<string>, provider: string)
    requires Last(picks) != "" && Last(picks) != provider
    ensures !NoConflict(picks + [provider])
  {
    var picked := picks + [provider];
    assert picked[|picks|] == provider && picked[|picks| - 1] == Last(picks);
  }

  lemma ExtendNoConflict(picks: seq<string>, provider: string)
    requires NoConflict(picks) && (Last(picks) == "" || Last(picks) == provider)
    ensures NoConflict(picks + [provider]) && Last(picks + [provider]) == provider
  {}

  /** The two inner loops of `copyTLS`, over the hosts of one entry. The innermost loop visits
      the domains in any order, and may choose another order for every host. An abort leaves in
      `j` the host whose provider conflicts. */
  method CopyHosts(
    domains: Domains, hosts: seq<string>, found: string, ghost before: seq<string>, ghost picked: seq<string>)
    returns (copiedHosts: seq<string>, foundProvider: string, aborted: bool, log: seq<Recorded>, ghost j: nat,
      ghost picks: seq<string>)
    requires ValidPicks(domains, before, picked) && NoConflict(picked) && found == Last(picked)
    ensures !aborted ==> copiedHosts == Keep(domains, hosts) && foundProvider == Last(picks)
    ensures !aborted ==> ValidPicks(domains, before + copiedHosts, picks) && NoConflict(picks)
    ensures !aborted ==> log == HostComplaints(domains, hosts)
    ensures aborted ==> j < |hosts| && log == HostComplaints(domains, hosts[..j]) + [Conflict]
    ensures aborted ==> ValidPicks(domains, before + Keep(domains, hosts[..j + 1]), picks) && !NoConflict(picks)
    ensures aborted ==> Managed(domains, hosts[j]) && NoConflict(picks[..|picks| - 1])
  {
    copiedHosts, foundProvider, aborted, log, picks := [], found, false, [], picked;
    j := 0;
    assert before + [] == before;
    for i := 0 to |hosts|
      invariant copiedHosts == Keep(domains, hosts[..i])
      invariant ValidPicks(domains, before + copiedHosts, picks) && NoConflict(picks)
      invariant foundProvider == Last(picks)
      invariant log == HostComplaints(domains, hosts[..i])
    {
      var host := hosts[i];
      var hostAdded := false;
      var unvisited := domains.Keys;
      while unvisited != {}
        invariant unvisited <= domains.Keys && !hostAdded
        invariant forall d :: d in domains && d !in unvisited ==> !HasSuffix(host, d)
        decreases |unvisited|
      {
        var managedDomain :| managedDomain in unvisited;
        unvisited := unvisited - {managedDomain};
        var provider := domains[managedDomain];
        if HasSuffix(host, managedDomain) {
          PickHost(domains, before, hosts, i, picks, managedDomain);
          if |foundProvider| > 0 && foundProvider != provider {
            ConflictingPick(picks, provider);
            assert (picks + [provider])[..|picks|] == picks;
            return [], "", true, log + [Conflict], i, picks + [provider];
          }
          ExtendNoConflict(picks, provider);
          picks := picks + [provider];
          foundProvider := provider;
          copiedHosts := copiedHosts + [host];
          hostAdded := true;
          break;
        }
      }
      if !hostAdded {
        SkipHost(domains, hosts, i);
        log := log + [Unmanaged(host)];
      }
    }
    assert hosts[..|hosts|] == hosts;
  }

  ghost predicate AbortLog(domains: Domains, tls: seq<IngressTLS>, picks: seq<string>, log: seq<Recorded>) {
    exists i, j ::
      && 0 <= i < |tls| && 0 <= j < |tls[i].hosts| && StopsAt(domains, tls, picks, i, j)
      && log == Complaints(domains, tls[..i]) + HostComplaints(domains, tls[i].hosts[..j]) + [Conflict]
  }

  /** A run of `copyTLS` that returned `copy` and told the recorder `log`: of every unmanaged host,
      or of those before the first host whose provider conflicts, and of the conflict. */
  ghost predicate CopyLog(domains: Domains, tls: seq<IngressTLS>, copy: CopyResult, log: seq<Recorded>) {
    exists picks ::
      && ValidPicks(domains, ManagedHosts(domains, tls), picks) && copy == Judge(domains, tls, picks)
      && (NoConflict(picks) ==> log == Complaints(domains, tls))
      && (!NoConflict(picks) ==> AbortLog(domains, tls, picks, log))
  }

  /** `copyTLS`: the returned list, provider and log are those of one choice of a domain per host. */
  method CopyTLS(domains: Domains, tls: seq<IngressTLS>) returns (r: CopyResult, log: seq<Recorded>)
    ensures CopyLog(domains, tls, r, log)
    ensures CopyOutcome(domains, tls, r)
  {
    var copiedTLS: seq<IngressTLS> := [];
    var foundProvider := "";
    log := [];
    ghost var picks: seq<string> := [];
    for i := 0 to |tls|
      invariant ValidPicks(domains, ManagedHosts(domains, tls[..i]), picks) && NoConflict(picks)
      invariant foundProvider == Last(picks)
      invariant copiedTLS == FilterTLS(domains, tls[..i])
      invariant log == Complaints(domains, tls[..i])
    {
      ghost var before := ManagedHosts(domains, tls[..i]);
      var copiedHosts, found, aborted, complaints, j, newPicks :=
        CopyHosts(domains, tls[i].hosts, foundProvider, before, picks);
      picks := newPicks;
      log := log + complaints;
      if aborted {
        picks := Aborted(domains, tls, i, j, picks);
        assert log == Complaints(domains, tls[..i]) + HostComplaints(domains, tls[i].hosts[..j]) + [Conflict];
        assert AbortLog(domains, tls, picks, log);
        return NOTHING, log;
      }
      foundProvider := found;
      NextEntry(domains, tls, i);
      if |copiedHosts| > 0 {
        copiedTLS := copiedTLS + [IngressTLS(copiedHosts, tls[i].secretName)];
      }
    }
    assert tls[..|tls|] == tls;
    return CopyResult(copiedTLS, foundProvider), log;
  }
}
