/** The MainHandlers callbacks (cmd/cbft/main.go:252-263): the manager calls
    them as index partitions come and go, and they keep the process-wide
    index-name registry of the bleve HTTP layer up to date. */
module Registry {

  /** An opened bleve index; only its identity matters here. */
  datatype BleveIndex = BleveIndex(id: nat)

  /** The implementation behind a partition: a bleve index, or anything else
      (including none), for which the type assertion to bleve.Index fails. */
  datatype Impl = Bleve(index: BleveIndex) | Other(kind: string)

  datatype PIndex = PIndex(name: string, impl: Impl)

  type Names = map<string, BleveIndex>

  /** The registry after OnRegisterPIndex(p). */
  function Registered(names: Names, p: PIndex): (r: Names)
    ensures p.impl.Bleve? ==> r.Keys == names.Keys + {p.name} && r[p.name] == p.impl.index
    ensures !p.impl.Bleve? ==> r == names
    ensures forall n :: n in names && n != p.name ==> n in r && r[n] == names[n]
  {
    match p.impl
    case Bleve(index) => names[p.name := index]
    case Other(_) => names
  }

  /** The registry after OnUnregisterPIndex(p). */
  function Unregistered(names: Names, p: PIndex): (r: Names)
    ensures r.Keys == names.Keys - {p.name}
    ensures forall n :: n in r ==> r[n] == names[n]
  {
    names - {p.name}
  }

  /** The process-wide name registry. */
  class IndexNames {
    var byName: Names

    constructor ()
      ensures byName == map[]
    {
      byName := map[];
    }
  }

  /** The callback object handed to the manager; it acts on the shared registry. */
  class MainHandlers {
    const names: IndexNames

    constructor (names: IndexNames)
      ensures this.names == names
    {
      this.names := names;
    }

    method OnRegisterPIndex(p: PIndex)
      modifies names
      ensures names.byName == Registered(old(names.byName), p)
    {
      match p.impl {
        case Bleve(index) =>
          names.byName := names.byName[p.name := index];
        case Other(_) =>
      }
    }

    method OnUnregisterPIndex(p: PIndex)
      modifies names
      ensures names.byName == Unregistered(old(names.byName), p)
    {
      names.byName := names.byName - {p.name};
    }
  }

  /** A registration delivered twice has the effect of one delivery. */
  lemma RegisterIdempotent(names: Names, p: PIndex)
    ensures Registered(Registered(names, p), p) == Registered(names, p)
  {
  }

  /** An unregistration delivered twice has the effect of one delivery. */
  lemma UnregisterIdempotent(names: Names, p: PIndex)
    ensures Unregistered(Unregistered(names, p), p) == Unregistered(names, p)
  {
  }

  /** Unregistering a partition that was registered under a fresh name
      restores the registry as it was. */
  lemma UnregisterUndoesRegister(names: Names, p: PIndex)
    requires p.name !in names
    ensures Unregistered(Registered(names, p), p) == names
  {
  }

  /** After registering a bleve partition, its name resolves to its index;
      after unregistering it, the name is gone. */
  lemma RegisterThenLookup(names: Names, p: PIndex, q: PIndex)
    requires p.impl.Bleve? && q.name == p.name
    ensures p.name in Registered(names, p) && Registered(names, p)[p.name] == p.impl.index
    ensures p.name !in Unregistered(Registered(names, p), q)
  {
  }
}
