/**
 Qualified primitive names (server.go, lines 902-936): the scheduler keeps the
 primitives of all namespaces in one map, under "namespace/id".
 */
module Namespaces {

  /** What the scheduler reports of a primitive; `stats` holds the fields of its statistics. */
  datatype PrimInfo = PrimInfo(id: string, kind: string, name: string, created: int, blocked: int,
                               stats: map<string, string>)

  type Prims = map<string, PrimInfo>

  function Qualify(ns: string, id: string): string { ns + "/" + id }

  /** strings.SplitN(id, "/", 2), with the empty namespace for an id without a slash. */
  function Split(id: string): (string, string) {
    var k := Slash(id);
    if k == |id| then ("", id) else (id[..k], id[k + 1..])
  }

  /** The position of the first slash, or the length. */
  function Slash(s: string): (k: nat)
    ensures k <= |s| && '/' !in s[..k] && (if k < |s| then s[k] == '/' else '/' !in s)
  {
    if s == "" || s[0] == '/' then 0 else 1 + Slash(s[1..])
  }

  /** Splitting undoes qualifying exactly for the namespaces without a slash, whatever the id. */
  lemma SplitQualify(ns: string, id: string)
    ensures Split(Qualify(ns, id)) == (ns, id) <==> '/' !in ns
  {
    var s := Qualify(ns, id);
    assert s[|ns|] == '/';
    if '/' !in ns {
      assert s[..|ns|] == ns && s[|ns| + 1..] == id;
      SlashAt(s, |ns|);
    }
  }

  lemma {:induction false} SlashAt(s: string, k: nat)
    requires k < |s| && s[k] == '/' && '/' !in s[..k]
    ensures Slash(s) == k
  {
    if k == 0 {
      assert s[0] == '/';
    } else {
      assert s[0] == s[..k][0] && s[1..][..k - 1] == s[..k][1..];
      SlashAt(s[1..], k - 1);
    }
  }

  /** Qualifying undoes splitting for every name that has a slash. */
  lemma QualifySplit(s: string)
    ensures '/' in s ==> Qualify(Split(s).0, Split(s).1) == s && '/' !in Split(s).0
    ensures '/' !in s ==> Split(s) == ("", s)
  {
    var k := Slash(s);
    if '/' in s {
      assert s[..|s|] == s;
      assert s == s[..k] + [s[k]] + s[k + 1..];
    }
  }

  /** Two names split alike exactly if they are the same, or one is a bare id and the other that id behind a slash. */
  lemma SplitCollides(a: string, b: string)
    ensures Split(a) == Split(b) <==> a == b || BehindSlash(a, b) || BehindSlash(b, a)
  {
    QualifySplit(a);
    QualifySplit(b);
    if BehindSlash(a, b) { SlashAt(a, 0); }
    if BehindSlash(b, a) { SlashAt(b, 0); }
  }

  /** a is the id b, which has no slash, behind one. */
  predicate BehindSlash(a: string, b: string) { a == "/" + b && '/' !in b }

  /** So there are two names for every bare id in the empty namespace. */
  lemma EmptyNamespaceCollides(id: string)
    requires '/' !in id
    ensures "/" + id != id && Split("/" + id) == Split(id) == ("", id)
  {
    SplitCollides("/" + id, id);
    QualifySplit(id);
    assert |"/" + id| == |id| + 1;
  }

  /** The names of ns in prims, without the namespace. */
  function RawIds(prims: Prims, ns: string): set<string> {
    set id | id in prims && Split(id).0 == ns :: Split(id).1
  }

  /** The primitives of a namespace under their own ids. */
  function Filter(prims: Prims, ns: string): Prims {
    map raw | raw in RawIds(prims, ns) && Qualify(ns, raw) in prims :: prims[Qualify(ns, raw)].(id := raw)
  }

  /** filtered[raw] was copied from one of the primitives that split to (ns, raw). */
  predicate CopiedFrom(filtered: Prims, prims: Prims, ns: string, id: string) {
    && id in prims && Split(id).0 == ns && Split(id).1 in filtered
    && filtered[Split(id).1] == prims[id].(id := Split(id).1)
  }

  /**
   filterPrimitivesForNamespace; the order in which a Go map is ranged over is
   arbitrary. In a namespace with a name the result does not depend on it.
   */
  method FilterPrimitives(prims: Prims, ns: string) returns (filtered: Prims)
    ensures filtered.Keys == RawIds(prims, ns)
    ensures forall raw :: raw in filtered ==> exists id :: CopiedFrom(filtered, prims, ns, id) && Split(id).1 == raw
    ensures ns != "" ==> filtered == Filter(prims, ns)
  {
    filtered := map[];
    var rest := prims.Keys;
    while rest != {}
      invariant rest <= prims.Keys
      invariant filtered.Keys == set id | id in prims && id !in rest && Split(id).0 == ns :: Split(id).1
      invariant forall raw :: raw in filtered ==> exists id :: CopiedFrom(filtered, prims, ns, id) && Split(id).1 == raw
      decreases |rest|
    {
      var id :| id in rest;
      rest := rest - {id};
      var (space, raw) := Split(id);
      if space == ns {
        ghost var before := filtered;
        filtered := filtered[raw := prims[id].(id := raw)];
        assert CopiedFrom(filtered, prims, ns, id);
        forall r | r in filtered ensures exists i :: CopiedFrom(filtered, prims, ns, i) && Split(i).1 == r {
          if r != raw {
            var i :| CopiedFrom(before, prims, ns, i) && Split(i).1 == r;
            assert CopiedFrom(filtered, prims, ns, i);
          }
        }
      }
    }
    if ns != "" { NamedFilter(filtered, prims, ns); }
  }

  /** With a name, an entry can only have come from the qualified id. */
  lemma NamedFilter(filtered: Prims, prims: Prims, ns: string)
    requires ns != "" && filtered.Keys == RawIds(prims, ns)
    requires forall raw :: raw in filtered ==> exists id :: CopiedFrom(filtered, prims, ns, id) && Split(id).1 == raw
    ensures filtered == Filter(prims, ns)
  {
    forall raw | raw in filtered
      ensures Qualify(ns, raw) in prims && filtered[raw] == prims[Qualify(ns, raw)].(id := raw)
    {
      var id :| CopiedFrom(filtered, prims, ns, id) && Split(id).1 == raw;
      QualifySplit(id);
    }
  }

  /** The scheduler's map when each namespace has its own primitives. */
  ghost function Union(spaces: map<string, Prims>): Prims {
    map ns, id | ns in spaces && id in spaces[ns] && Split(Qualify(ns, id)) == (ns, id) ::
      Qualify(ns, id) := spaces[ns][id].(id := Qualify(ns, id))
  }

  /** Filtering the union of all namespaces gives back exactly the primitives of one. */
  lemma FilterUnion(spaces: map<string, Prims>, ns: string)
    requires forall n :: n in spaces ==> '/' !in n
    requires forall n, id :: n in spaces && id in spaces[n] ==> spaces[n][id].id == id
    ensures Filter(Union(spaces), ns) == if ns in spaces then spaces[ns] else map[]
  {
    var all := Union(spaces);
    forall raw | raw in Filter(all, ns) ensures ns in spaces && raw in spaces[ns] && Filter(all, ns)[raw] == spaces[ns][raw] {
      var id :| id in all && Split(id) == (ns, raw);
      var n, i :| n in spaces && i in spaces[n] && Split(Qualify(n, i)) == (n, i) && id == Qualify(n, i);
    }
    if ns in spaces {
      forall raw | raw in spaces[ns] ensures raw in Filter(all, ns) {
        SplitQualify(ns, raw);
        assert Qualify(ns, raw) in all;
      }
    }
  }
}
