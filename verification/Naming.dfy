/** The names that carry a namespaced target object into the one flat
    namespace of the control cluster, and back. */
module Naming {

  const MANAGED_CERT := "managed-cert"
  const SEPARATOR := '.'
  const KEY_SEPARATOR := '/'

  /** The first position of `c` in `s`, or |s| when there is none. */
  function IndexOf(s: string, c: char): (i: nat)
    ensures i <= |s|
    ensures c !in s[..i]
    ensures i < |s| ==> s[i] == c
  {
    if s == [] || s[0] == c then 0 else
      var i := 1 + IndexOf(s[1..], c);
      assert s[..i] == [s[0]] + s[1..][..i - 1];
      i
  }

  /** Go's `strings.SplitN` for a positive limit: at most `n` pieces, the last one unsplit. */
  function SplitN(s: string, c: char, n: nat): (parts: seq<string>)
    requires n > 0
    ensures 1 <= |parts| <= n
    decreases n
  {
    var i := IndexOf(s, c);
    if n == 1 || i == |s| then [s] else [s[..i]] + SplitN(s[i + 1..], c, n - 1)
  }

  /** Go's `strings.Join` with a one-character separator. */
  function Join(parts: seq<string>, c: char): string
    requires parts != []
  {
    if |parts| == 1 then parts[0] else parts[0] + [c] + Join(parts[1..], c)
  }

  function Dots(s: string): nat {
    if s == [] then 0 else (if s[0] == SEPARATOR then 1 else 0) + Dots(s[1..])
  }

  function SplitNamespace(combined: string): (string, string) {
    var parts := SplitN(combined, SEPARATOR, 3);
    if |parts| == 1 then ("", combined)
    else if |parts| == 3 then (parts[1], parts[2])
    else ("", "")
  }

  function CreateNameForControlCluster(ns: string, name: string): string {
    MANAGED_CERT + [SEPARATOR] + ns + [SEPARATOR] + name
  }

  /** `ControlClusterResourceFilter`: what the informers of the control cluster let through. */
  predicate FilterAccepts(controlName: string) {
    var (ns, name) := SplitNamespace(controlName);
    |ns| > 0 && |name| > 0
  }

  // ---- Strings ----

  lemma {:induction false} IndexOfAppend(a: string, c: char, b: string)
    requires c !in a
    ensures IndexOf(a + [c] + b, c) == |a|
  {
    if a != [] {
      assert (a + [c] + b)[1..] == a[1..] + [c] + b;
      IndexOfAppend(a[1..], c, b);
    }
  }

  lemma {:induction false} SplitJoins(s: string, c: char, n: nat)
    requires n > 0
    ensures Join(SplitN(s, c, n), c) == s
    ensures forall k :: 0 <= k < |SplitN(s, c, n)| - 1 ==> c !in SplitN(s, c, n)[k]
    decreases n
  {
    var i := IndexOf(s, c);
    if n > 1 && i < |s| {
      var rest := SplitN(s[i + 1..], c, n - 1);
      SplitJoins(s[i + 1..], c, n - 1);
      assert ([s[..i]] + rest)[1..] == rest;
      assert s == s[..i] + [c] + s[i + 1..];
    }
  }

  lemma {:induction false} DotsAppend(a: string, b: string)
    ensures Dots(a + b) == Dots(a) + Dots(b)
  {
    if a == [] {
      assert a + b == b;
    } else {
      assert (a + b)[1..] == a[1..] + b;
      DotsAppend(a[1..], b);
    }
  }

  lemma {:induction false} DotsZero(s: string)
    ensures Dots(s) == 0 <==> SEPARATOR !in s
  {
    if s != [] {
      assert s == [s[0]] + s[1..];
      DotsZero(s[1..]);
    }
  }

  lemma {:induction false} DotsFromFirst(s: string)
    ensures IndexOf(s, SEPARATOR) == |s| ==> Dots(s) == 0
    ensures IndexOf(s, SEPARATOR) < |s| ==> Dots(s) == 1 + Dots(s[IndexOf(s, SEPARATOR) + 1..])
  {
    if s != [] && s[0] != SEPARATOR {
      DotsFromFirst(s[1..]);
      var i := IndexOf(s[1..], SEPARATOR);
      assert i < |s| - 1 ==> s[1..][i + 1..] == s[i + 2..];
    }
  }

  lemma {:induction false} SplitCountsDots(s: string, n: nat)
    requires n > 0
    ensures |SplitN(s, SEPARATOR, n)| == if Dots(s) + 1 < n then Dots(s) + 1 else n
    decreases n
  {
    var i := IndexOf(s, SEPARATOR);
    DotsFromFirst(s);
    if n > 1 && i < |s| {
      SplitCountsDots(s[i + 1..], n - 1);
      assert SplitN(s, SEPARATOR, n) == [s[..i]] + SplitN(s[i + 1..], SEPARATOR, n - 1);
    } else {
      assert SplitN(s, SEPARATOR, n) == [s];
    }
  }

  // ---- The codec ----

  /** What a three-way split sees of a name with a separator after `ns`. */
  lemma SplitThree(head: string, ns: string, name: string)
    requires SEPARATOR !in head && SEPARATOR !in ns
    ensures SplitNamespace(head + [SEPARATOR] + ns + [SEPARATOR] + name) == (ns, name)
  {
    var tail := ns + [SEPARATOR] + name;
    var s := head + [SEPARATOR] + tail;
    assert head + [SEPARATOR] + ns + [SEPARATOR] + name == s;
    IndexOfAppend(head, SEPARATOR, tail);
    IndexOfAppend(ns, SEPARATOR, name);
    assert s[|head| + 1..] == tail;
    assert tail[|ns| + 1..] == name && tail[..|ns|] == ns;
    assert SplitN(tail, SEPARATOR, 2) == [ns] + SplitN(name, SEPARATOR, 1);
    assert SplitN(s, SEPARATOR, 3) == [s[..|head|]] + SplitN(tail, SEPARATOR, 2);
  }

  /** Decoding undoes encoding for exactly the namespaces without a dot. */
  lemma SplitUndoesCreate(ns: string, name: string)
    ensures SplitNamespace(CreateNameForControlCluster(ns, name)) == (ns, name) <==> SEPARATOR !in ns
  {
    if SEPARATOR !in ns {
      SplitThree(MANAGED_CERT, ns, name);
    } else {
      var i := IndexOf(ns, SEPARATOR);
      var rest := ns[i + 1..] + [SEPARATOR] + name;
      assert ns == ns[..i] + [SEPARATOR] + ns[i + 1..];
      assert CreateNameForControlCluster(ns, name)
          == MANAGED_CERT + [SEPARATOR] + ns[..i] + [SEPARATOR] + rest;
      SplitThree(MANAGED_CERT, ns[..i], rest);
      assert SEPARATOR !in ns[..i];
    }
  }

  /** Three pieces are the head, namespace and name of the string they came from. */
  lemma ThreePieces(s: string)
    requires Dots(s) >= 2
    ensures var (ns, name) := SplitNamespace(s); var head := SplitN(s, SEPARATOR, 3)[0];
      SEPARATOR !in head && SEPARATOR !in ns && s == head + [SEPARATOR] + ns + [SEPARATOR] + name
  {
    var parts := SplitN(s, SEPARATOR, 3);
    SplitJoins(s, SEPARATOR, 3);
    SplitCountsDots(s, 3);
    assert Join(parts[1..], SEPARATOR) == parts[1] + [SEPARATOR] + parts[2];
    assert parts[0] + [SEPARATOR] + Join(parts[1..], SEPARATOR)
        == parts[0] + [SEPARATOR] + parts[1] + [SEPARATOR] + parts[2];
  }

  lemma RebuildIff(head: string, s: string)
    requires SEPARATOR !in head && Dots(s) >= 2
    ensures var (ns, name) := SplitNamespace(s);
      head + [SEPARATOR] + ns + [SEPARATOR] + name == s <==> head + [SEPARATOR] <= s
  {
    var (ns, name) := SplitNamespace(s);
    ThreePieces(s);
    SameHead(SplitN(s, SEPARATOR, 3)[0], head, ns, name, s);
  }

  /** Encoding undoes decoding for exactly the names the broker could have made. */
  lemma CreateUndoesSplit(s: string)
    ensures (var (ns, name) := SplitNamespace(s); CreateNameForControlCluster(ns, name) == s)
       <==> MANAGED_CERT + [SEPARATOR] <= s && Dots(s) >= 2
  {
    if Dots(s) >= 2 {
      RebuildIff(MANAGED_CERT, s);
    } else {
      var (ns, name) := SplitNamespace(s);
      CreateHasTwoDots(ns, name);
    }
  }

  lemma SameHead(head: string, head': string, ns: string, name: string, s: string)
    requires SEPARATOR !in head && SEPARATOR !in head'
    requires s == head + [SEPARATOR] + ns + [SEPARATOR] + name
    ensures head' + [SEPARATOR] + ns + [SEPARATOR] + name == s <==> head' + [SEPARATOR] <= s
  {
    var tail := ns + [SEPARATOR] + name;
    assert s == head + [SEPARATOR] + tail;
    if head' + [SEPARATOR] <= s {
      IndexOfAppend(head, SEPARATOR, tail);
      IndexOfAppend(head', SEPARATOR, s[|head'| + 1..]);
      assert s == head' + [SEPARATOR] + s[|head'| + 1..];
      assert s[..|head|] == head && s[..|head'|] == head';
    } else {
      assert head' + [SEPARATOR] + ns + [SEPARATOR] + name == (head' + [SEPARATOR]) + tail;
    }
  }

  lemma CreateHasTwoDots(ns: string, name: string)
    ensures Dots(CreateNameForControlCluster(ns, name)) == 2 + Dots(ns) + Dots(name)
  {
    DotsAppend(MANAGED_CERT + [SEPARATOR] + ns + [SEPARATOR], name);
    DotsAppend(MANAGED_CERT + [SEPARATOR] + ns, [SEPARATOR]);
    DotsAppend(MANAGED_CERT + [SEPARATOR], ns);
    DotsAppend(MANAGED_CERT, [SEPARATOR]);
    DotsZero(MANAGED_CERT);
  }

  /** The separator and the head as they are written out. */
  lemma ControlNameSpelled(ns: string, name: string)
    ensures CreateNameForControlCluster(ns, name) == "managed-cert." + ns + "." + name
  {
    assert MANAGED_CERT + [SEPARATOR] == "managed-cert." && [SEPARATOR] == ".";
  }

  /** A name with fewer than two dots decodes to nothing, but one without a dot to itself. */
  lemma TooFewPieces(s: string)
    ensures Dots(s) == 0 ==> SplitNamespace(s) == ("", s)
    ensures Dots(s) == 1 ==> SplitNamespace(s) == ("", "")
  {
    SplitCountsDots(s, 3);
  }

  /** Two objects share a control name only if they are one object, given dot-free namespaces. */
  lemma CreateInjective(ns0: string, name0: string, ns1: string, name1: string)
    requires SEPARATOR !in ns0 && SEPARATOR !in ns1
    requires CreateNameForControlCluster(ns0, name0) == CreateNameForControlCluster(ns1, name1)
    ensures ns0 == ns1 && name0 == name1
  {
    SplitUndoesCreate(ns0, name0);
    SplitUndoesCreate(ns1, name1);
  }

  /** The encoding collides for every namespace that contains a dot. */
  lemma CreateCollides(a: string, b: string, name: string)
    ensures CreateNameForControlCluster(a + [SEPARATOR] + b, name)
         == CreateNameForControlCluster(a, b + [SEPARATOR] + name)
  {
    var x := CreateNameForControlCluster(a + [SEPARATOR] + b, name);
    var y := CreateNameForControlCluster(a, b + [SEPARATOR] + name);
    assert x == MANAGED_CERT + [SEPARATOR] + a + [SEPARATOR] + b + [SEPARATOR] + name;
    assert y == MANAGED_CERT + [SEPARATOR] + a + [SEPARATOR] + b + [SEPARATOR] + name;
  }

  /** A name the broker gives to an object of the target cluster. */
  ghost predicate BrokerMade(controlName: string) {
    exists ns, name ::
      |ns| > 0 && |name| > 0 && SEPARATOR !in ns && controlName == CreateNameForControlCluster(ns, name)
  }

  /** The informer filter lets through every broker-made name; of the names it lets through,
      those that begin with the broker's prefix are exactly the broker-made ones. */
  lemma FilterIsExactOnPrefix(s: string)
    ensures BrokerMade(s) <==> FilterAccepts(s) && MANAGED_CERT + [SEPARATOR] <= s
  {
    CreateUndoesSplit(s);
    if BrokerMade(s) {
      var ns, name :|
        |ns| > 0 && |name| > 0 && SEPARATOR !in ns && s == CreateNameForControlCluster(ns, name);
      SplitUndoesCreate(ns, name);
    }
    if FilterAccepts(s) && MANAGED_CERT + [SEPARATOR] <= s {
      SplitCountsDots(s, 3);
      ThreePieces(s);
    }
  }

  /** The filter asks for three pieces of which the last two are not empty; the first may be anything. */
  lemma FilterAcceptsIff(s: string)
    ensures FilterAccepts(s) <==>
      exists head: string, ns: string, name: string ::
        && SEPARATOR !in head && SEPARATOR !in ns && ns != "" && name != ""
        && s == head + [SEPARATOR] + ns + [SEPARATOR] + name
  {
    if Dots(s) >= 2 {
      ThreePieces(s);
    } else {
      DotsZero(s);
      TooFewPieces(s);
    }
    if head, ns, name :| SEPARATOR !in head && SEPARATOR !in ns && ns != "" && name != ""
                         && s == head + [SEPARATOR] + ns + [SEPARATOR] + name
    {
      SplitThree(head, ns, name);
    }
  }

  lemma HeadsDecide(head: string, head': string, ns: string, name: string)
    requires SEPARATOR !in head && SEPARATOR !in head' && head != head'
    ensures head + [SEPARATOR] + ns + [SEPARATOR] + name != head' + [SEPARATOR] + ns + [SEPARATOR] + name
  {
    var tail := ns + [SEPARATOR] + name;
    assert head + [SEPARATOR] + ns + [SEPARATOR] + name == head + [SEPARATOR] + tail;
    assert head' + [SEPARATOR] + ns + [SEPARATOR] + name == head' + [SEPARATOR] + tail;
    IndexOfAppend(head, SEPARATOR, tail);
    IndexOfAppend(head', SEPARATOR, tail);
    assert (head + [SEPARATOR] + tail)[..|head|] == head;
    assert (head' + [SEPARATOR] + tail)[..|head'|] == head';
  }

  /** Different heads make different names that decode alike. */
  lemma HeadsCollide(head: string, head': string, ns: string, name: string)
    requires SEPARATOR !in head && SEPARATOR !in head' && SEPARATOR !in ns && head != head'
    ensures var a := head + [SEPARATOR] + ns + [SEPARATOR] + name;
      var b := head' + [SEPARATOR] + ns + [SEPARATOR] + name;
      a != b && SplitNamespace(a) == SplitNamespace(b) == (ns, name)
  {
    SplitThree(head, ns, name);
    SplitThree(head', ns, name);
    HeadsDecide(head, head', ns, name);
  }

  // ---- Cache keys ----

  datatype Option<+T> = None | Some(value: T)

  /** client-go's `MetaNamespaceKeyFunc`. */
  function MetaKey(ns: string, name: string): string {
    if |ns| > 0 then ns + [KEY_SEPARATOR] + name else name
  }

  /** client-go's `SplitMetaNamespaceKey`; None is its error. */
  function SplitMetaKey(key: string): Option<(string, string)> {
    var parts := SplitN(key, KEY_SEPARATOR, |key| + 3);
    if |parts| == 1 then Some(("", parts[0]))
    else if |parts| == 2 then Some((parts[0], parts[1]))
    else None
  }

  lemma {:induction false} SplitPieces(s: string, n: nat)
    requires n > |s| + 1
    ensures forall k :: 0 <= k < |SplitN(s, KEY_SEPARATOR, n)| ==> KEY_SEPARATOR !in SplitN(s, KEY_SEPARATOR, n)[k]
    decreases n
  {
    var i := IndexOf(s, KEY_SEPARATOR);
    if i < |s| {
      SplitPieces(s[i + 1..], n - 1);
    } else {
      assert s[..i] == s;
    }
  }

  /** Two pieces or more where there is a separator, and three or more where there are two. */
  lemma KeyPieces(s: string, n: nat)
    requires n > 2
    ensures KEY_SEPARATOR !in s ==> SplitN(s, KEY_SEPARATOR, n) == [s]
    ensures KEY_SEPARATOR in s ==>
      var i := IndexOf(s, KEY_SEPARATOR);
      && i < |s| && |SplitN(s, KEY_SEPARATOR, n)| >= 2
      && (|SplitN(s, KEY_SEPARATOR, n)| >= 3 <==> KEY_SEPARATOR in s[i + 1..])
  {
    var i := IndexOf(s, KEY_SEPARATOR);
    assert s[..|s|] == s;
    if i < |s| {
      SplitOnce(s, KEY_SEPARATOR, n);
      AnySeparator(s[i + 1..], n - 1);
    }
  }

  lemma AnySeparator(s: string, n: nat)
    requires n > 1
    ensures |SplitN(s, KEY_SEPARATOR, n)| >= 2 <==> KEY_SEPARATOR in s
  {
    assert s[..|s|] == s;
    if IndexOf(s, KEY_SEPARATOR) < |s| {
      SplitOnce(s, KEY_SEPARATOR, n);
    }
  }

  lemma SplitOnce(s: string, c: char, n: nat)
    requires n > 1 && IndexOf(s, c) < |s|
    ensures SplitN(s, c, n) == [s[..IndexOf(s, c)]] + SplitN(s[IndexOf(s, c) + 1..], c, n - 1)
  {}

  /** A key is refused exactly if it has two slashes or more. */
  lemma KeyRefusedIff(key: string)
    ensures SplitMetaKey(key).None?
       <==> KEY_SEPARATOR in key && KEY_SEPARATOR in key[IndexOf(key, KEY_SEPARATOR) + 1..]
    ensures KEY_SEPARATOR !in key ==> SplitMetaKey(key) == Some(("", key))
  {
    KeyPieces(key, |key| + 3);
  }

  /** A queue key gives back the object it was made from exactly when neither part has a slash. */
  lemma KeyRoundTrip(ns: string, name: string)
    ensures SplitMetaKey(MetaKey(ns, name)) == Some((ns, name))
       <==> KEY_SEPARATOR !in ns && KEY_SEPARATOR !in name
  {
    var key := MetaKey(ns, name);
    SplitPieces(key, |key| + 3);
    if KEY_SEPARATOR !in ns && KEY_SEPARATOR !in name {
      var i := IndexOf(name, KEY_SEPARATOR);
      assert i == |name|;
      if |ns| > 0 {
        IndexOfAppend(ns, KEY_SEPARATOR, name);
        assert key[..|ns|] == ns && key[|ns| + 1..] == name;
        assert SplitN(key, KEY_SEPARATOR, |key| + 3) == [ns] + SplitN(name, KEY_SEPARATOR, |key| + 2);
      }
    }
  }
}
