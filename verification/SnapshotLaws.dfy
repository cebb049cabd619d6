/** What a lookup finds and what narrowing keeps, stated on the objects. */
module SnapshotLaws {
  import opened Text
  import opened Seqs
  import opened Model
  import opened Snapshots

  /** The object answers to the name; four kinds also have a namespace. */
  predicate Fits(kind: Resource, o: Object, namespace: string, name: string)
  {
    o.name == name && (kind in {Secrets, ConfigMaps, Pvcs, ServiceAccounts} ==> o.namespace == namespace)
  }

  /** Position i holds the first object that answers to the name. */
  predicate FirstAt(kind: Resource, objects: seq<Object>, namespace: string, name: string, i: nat)
  {
    i < |objects| && Fits(kind, objects[i], namespace, name) && forall j :: 0 <= j < i ==> !Fits(kind, objects[j], namespace, name)
  }

  ghost predicate IsFirst(kind: Resource, objects: seq<Object>, namespace: string, name: string, o: Object)
  {
    exists i :: 0 <= i < |objects| && objects[i] == o && FirstAt(kind, objects, namespace, name, i)
  }

  lemma {:induction false} ScanAt(kind: Resource, objects: seq<Object>, namespace: string, name: string, i: nat)
    requires FirstAt(kind, objects, namespace, name, i)
    ensures FirstMatch(kind, objects, namespace, name) == Some(objects[i])
  {
    if i > 0 {
      assert !Fits(kind, objects[0], namespace, name);
      forall j | 0 <= j < i - 1 ensures !Fits(kind, objects[1..][j], namespace, name) {
        assert objects[1..][j] == objects[j + 1];
      }
      ScanAt(kind, objects[1..], namespace, name, i - 1);
    }
  }

  lemma {:induction false} ScanFinds(kind: Resource, objects: seq<Object>, namespace: string, name: string) returns (i: nat)
    requires FirstMatch(kind, objects, namespace, name).Some?
    ensures FirstAt(kind, objects, namespace, name, i)
  {
    i := 0;
    if !Fits(kind, objects[0], namespace, name) {
      var k := ScanFinds(kind, objects[1..], namespace, name);
      i := k + 1;
      forall j | 0 <= j < i ensures !Fits(kind, objects[j], namespace, name) {
        assert j > 0 ==> objects[j] == objects[1..][j - 1];
      }
    }
  }

  lemma ScanIs(kind: Resource, objects: seq<Object>, namespace: string, name: string, o: Object)
    ensures FirstMatch(kind, objects, namespace, name) == Some(o) <==> IsFirst(kind, objects, namespace, name, o)
  {
    hide FirstAt, FirstMatch;
    if FirstMatch(kind, objects, namespace, name).Some? {
      var i := ScanFinds(kind, objects, namespace, name);
      FirstIsInside(kind, objects, namespace, name, i);
      ScanAt(kind, objects, namespace, name, i);
    }
    if i :| 0 <= i < |objects| && objects[i] == o && FirstAt(kind, objects, namespace, name, i) {
      ScanAt(kind, objects, namespace, name, i);
    }
  }

  lemma FirstIsInside(kind: Resource, objects: seq<Object>, namespace: string, name: string, i: nat)
    requires FirstAt(kind, objects, namespace, name, i)
    ensures i < |objects|
  {
  }

  /** With a current index a lookup finds exactly the first object of its collection
      with the name, in its namespace for Secrets, ConfigMaps, claims and accounts. */
  lemma LookupFinds(v: View, kind: Resource, namespace: string, name: string, o: Object)
    requires Current(v) && Indexed(kind)
    requires '/' !in namespace && PlainNamespaces(Get(v.collections, kind))
    ensures Answer(v, kind, namespace, name) == Some(o)
            <==> kind in v.collections && IsFirst(kind, v.collections[kind], namespace, name, o)
  {
    hide Current, Answer, IsFirst, FirstMatch, Unambiguous;
    LookupIsScan(v, kind, namespace, name);
    PlainNamespacesAreUnambiguous(kind, Get(v.collections, kind), namespace, name);
    ScanIs(kind, Get(v.collections, kind), namespace, name, o);
    if kind !in v.collections {
      NothingIsFirst(kind, namespace, name, o);
    }
  }

  lemma NothingIsFirst(kind: Resource, namespace: string, name: string, o: Object)
    ensures !IsFirst(kind, [], namespace, name, o)
  {
  }

  // ---------------------------------------------------------------------------
  // Narrowing

  /** A claim of the Pod that is bound to the volume. */
  ghost predicate BoundTo(s: Selection, claims: seq<Object>, volume: string)
  {
    exists p :: p in claims && p.namespace == s.namespace && p.name in s.claims && p.volumeName == volume != ""
  }

  /** What the Pod can refer to, collection by collection. */
  ghost predicate Serves(s: Selection, c: Collections, kind: Resource, o: Object)
  {
    match kind
    case ConfigMaps => o.namespace == s.namespace && o.name in s.configMaps
    case Secrets => o.namespace == s.namespace && (o.name in s.secrets || o.name in s.ingressSecrets)
    case ServiceAccounts => o.namespace == s.namespace && o.name == if s.account == "" then "default" else s.account
    case Pvcs => o.namespace == s.namespace && o.name in s.claims
    case Pvs =>
      || BoundTo(s, if Pvcs in c then c[Pvcs] else [], o.name)
      || (exists claim :: o.claim == Some(claim) && claim.namespace == s.namespace && claim.name in s.claims)
    case _ => true
  }

  lemma {:induction false} VolumeNamesAre(claims: seq<Object>, volume: string)
    ensures volume in VolumeNames(claims) <==> exists p :: p in claims && p.volumeName == volume != ""
  {
    if claims != [] {
      var n := |claims| - 1;
      assert claims == claims[..n] + [claims[n]];
      VolumeNamesAre(claims[..n], volume);
    }
  }

  lemma VolumesAreBound(s: Selection, claims: seq<Object>, volume: string)
    ensures volume in VolumeNames(Filter(o => KeepsClaim(s, o), claims)) <==> BoundTo(s, claims, volume)
  {
    VolumeNamesAre(Filter(o => KeepsClaim(s, o), claims), volume);
    FilterMembers(o => KeepsClaim(s, o), claims);
    hide Filter, VolumeNames;
  }

  /** A narrowed collection holds exactly the objects that the Pod can refer to, as
      often as the source does; replaced collections are replaced, others untouched. */
  lemma NarrowedHolds(s: Selection, c: Collections, kind: Resource, o: Object)
    ensures var kept := Get(Narrowed(s, c), kind);
            if kind in {ConfigMaps, Secrets, ServiceAccounts, Pvcs, Pvs}
            then multiset(kept)[o] == if kind in c && Serves(s, c, kind, o) then multiset(c[kind])[o] else 0
            else kept == if kind in s.rest then s.rest[kind] else if kind in c then c[kind] else []
  {
    KeptIsNarrowed(s, c, kind);
    hide Filter, VolumeNames, Narrowed, BoundTo;
    assert multiset(Get(c, kind))[o] == if kind in c then multiset(c[kind])[o] else 0;
    match kind {
      case ConfigMaps => FilterMultiplicity(x => KeepsConfigMap(s, x), Get(c, kind), o);
      case Secrets => FilterMultiplicity(x => KeepsSecret(s, x), Get(c, kind), o);
      case ServiceAccounts => FilterMultiplicity(x => KeepsAccount(s, x), Get(c, kind), o);
      case Pvcs => FilterMultiplicity(x => KeepsClaim(s, x), Get(c, kind), o);
      case Pvs =>
        var volumes := VolumeNames(Filter(x => KeepsClaim(s, x), Get(c, Pvcs)));
        VolumesAreBound(s, Get(c, Pvcs), o.name);
        FilterMultiplicity(x => KeepsVolume(s, volumes, x), Get(c, kind), o);
      case _ =>
    }
  }
}
