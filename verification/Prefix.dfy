/** Secret names are prefixed in place, on slices. A Go slice is an array; the nil slice is null. */
module Prefix {
  import opened Naming
  import opened TLS

  function Prefixed(ns: string, tls: seq<IngressTLS>): seq<IngressTLS> {
    seq(|tls|, i requires 0 <= i < |tls| =>
      IngressTLS(tls[i].hosts, CreateNameForControlCluster(ns, tls[i].secretName)))
  }

  function Elements(slice: array?<IngressTLS>): seq<IngressTLS>
    reads slice
  {
    if slice == null then [] else slice[..]
  }

  /** Prefixing loses nothing: only one list has a given image. */
  lemma PrefixedInjective(ns: string, a: seq<IngressTLS>, b: seq<IngressTLS>)
    requires Prefixed(ns, a) == Prefixed(ns, b)
    ensures a == b
  {
    assert |a| == |Prefixed(ns, a)| == |Prefixed(ns, b)| == |b|;
    forall i | 0 <= i < |a| ensures a[i] == b[i] {
      assert Prefixed(ns, a)[i] == Prefixed(ns, b)[i];
      SamePrefix(MANAGED_CERT + [SEPARATOR] + ns + [SEPARATOR], a[i].secretName, b[i].secretName);
    }
  }

  lemma SamePrefix(prefix: string, x: string, y: string)
    requires prefix + x == prefix + y
    ensures x == y
  {
    assert (prefix + x)[|prefix|..] == x && (prefix + y)[|prefix|..] == y;
  }

  /** `prefixWithNamespace`: overwrites the elements of the slice it is given. */
  method PrefixWithNamespace(tls: array<IngressTLS>, ns: string)
    modifies tls
    ensures tls[..] == Prefixed(ns, old(tls[..]))
    ensures forall i :: 0 <= i < tls.Length ==> tls[i].hosts == old(tls[i].hosts)
    ensures forall i :: 0 <= i < tls.Length ==> tls[i].secretName == "managed-cert." + ns + "." + old(tls[i].secretName)
  {
    for i := 0 to tls.Length
      invariant tls[..i] == Prefixed(ns, old(tls[..]))[..i]
      invariant tls[i..] == old(tls[i..])
    {
      assert tls[i] == tls[i..][0] == old(tls[i]);
      var element := tls[i];
      tls[i] := element.(secretName := CreateNameForControlCluster(ns, element.secretName));
      assert tls[..i + 1] == tls[..i] + [tls[i]];
      assert tls[i + 1..] == old(tls[i..])[1..];
    }
    forall i | 0 <= i < tls.Length ensures tls[i] == Prefixed(ns, old(tls[..]))[i] {
      assert tls[..][i] == tls[i];
      ControlNameSpelled(ns, old(tls[i].secretName));
    }
  }

  /** `deepEqual`: compares with a prefixed copy. The copy is made before it is prefixed, and is
      never nil, so a nil slice equals nothing. No existing slice is written. */
  method DeepEqual(tls: array?<IngressTLS>, prefixedTLS: array?<IngressTLS>, ns: string) returns (equal: bool)
    ensures equal <==> prefixedTLS != null && prefixedTLS[..] == Prefixed(ns, Elements(tls))
  {
    var n := if tls == null then 0 else tls.Length;
    var tlsCopy := new IngressTLS[n](i requires 0 <= i < n && tls != null && n == tls.Length reads tls => tls[i]);
    assert tlsCopy[..] == Elements(tls);
    PrefixWithNamespace(tlsCopy, ns);
    equal := prefixedTLS != null && tlsCopy[..] == prefixedTLS[..];
  }
}
