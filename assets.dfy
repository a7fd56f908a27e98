/** Embedded-asset lookup with fallback (rest.go:52-68): the node's own
    embedded asset set is tried first, then the REST library's. Each asset
    set is an abstract lookup function returning Go's (value, error) pair. */
module Assets {
  import opened Wrappers

  newtype byte = x: int | 0 <= x < 256

  /** A Go (value, error) reply; err == None stands for a nil error. */
  datatype Reply<T> = Reply(value: T, err: Option<string>)

  /** One asset set, as a lookup by name. */
  type Provider<T> = string -> Reply<T>

  /** The asset sets, named in the order the lookups try them. */
  datatype AssetSet = CbftAssets | RestAssets

  const LookupOrder: seq<AssetSet> := [CbftAssets, RestAssets]

  /** myAssetDir: the node's AssetDir, then the REST library's AssetDir. */
  function MyAssetDir(assetDir: Provider<seq<string>>, restAssetDir: Provider<seq<string>>, name: string): (r: Reply<seq<string>>)
    ensures assetDir(name).err.None? ==> r == assetDir(name)
    ensures assetDir(name).err.Some? ==> r == restAssetDir(name)
  {
    var primary := assetDir(name);
    if primary.err.None? then primary else restAssetDir(name)
  }

  /** myAsset: the node's Asset, then the REST library's Asset. */
  function MyAsset(asset: Provider<seq<byte>>, restAsset: Provider<seq<byte>>, name: string): (r: Reply<seq<byte>>)
    ensures asset(name).err.None? ==> r == asset(name)
    ensures asset(name).err.Some? ==> r == restAsset(name)
  {
    var primary := asset(name);
    if primary.err.None? then primary else restAsset(name)
  }

  /** Reference definition: an ordered list of providers, first hit wins;
      when every provider fails, the last one's reply is returned. */
  function FirstHit<T>(ps: seq<Provider<T>>, name: string): (r: Reply<T>)
    requires |ps| > 0
    ensures exists i :: 0 <= i < |ps| && r == ps[i](name)
  {
    if |ps| == 1 || ps[0](name).err.None? then ps[0](name)
    else
      var r := FirstHit(ps[1..], name);
      ghost var i :| 0 <= i < |ps| - 1 && r == ps[1..][i](name);
      assert r == ps[i + 1](name);
      r
  }

  /** The reference lookup succeeds exactly when some provider does. */
  lemma {:induction false} FirstHitSucceeds<T>(ps: seq<Provider<T>>, name: string)
    requires |ps| > 0
    ensures FirstHit(ps, name).err.None? <==> exists i :: 0 <= i < |ps| && ps[i](name).err.None?
  {
    if |ps| > 1 && ps[0](name).err.Some? {
      FirstHitSucceeds(ps[1..], name);
      if exists i :: 0 <= i < |ps| && ps[i](name).err.None? {
        var i :| 0 <= i < |ps| && ps[i](name).err.None?;
        assert i > 0 && ps[1..][i - 1] == ps[i];
      }
    }
  }

  /** The reference lookup returns the reply of the first provider that succeeds. */
  lemma {:induction false} FirstHitIsFirst<T>(ps: seq<Provider<T>>, name: string, k: nat)
    requires k < |ps| && ps[k](name).err.None?
    requires forall j :: 0 <= j < k ==> ps[j](name).err.Some?
    ensures FirstHit(ps, name) == ps[k](name)
  {
    if k > 0 {
      FirstHitIsFirst(ps[1..], name, k - 1);
    }
  }

  /** When every provider fails, the caller sees the last provider's reply. */
  lemma {:induction false} FirstHitAllMiss<T>(ps: seq<Provider<T>>, name: string)
    requires |ps| > 0
    requires forall j :: 0 <= j < |ps| ==> ps[j](name).err.Some?
    ensures FirstHit(ps, name) == ps[|ps| - 1](name)
  {
    if |ps| > 1 {
      FirstHitAllMiss(ps[1..], name);
    }
  }

  /** myAssetDir is the reference lookup over [node's AssetDir, REST AssetDir]. */
  lemma MyAssetDirIsFirstHit(assetDir: Provider<seq<string>>, restAssetDir: Provider<seq<string>>, name: string)
    ensures MyAssetDir(assetDir, restAssetDir, name) == FirstHit([assetDir, restAssetDir], name)
  {
    assert [assetDir, restAssetDir][1..] == [restAssetDir];
  }

  /** myAsset is the reference lookup over [node's Asset, REST Asset]. */
  lemma MyAssetIsFirstHit(asset: Provider<seq<byte>>, restAsset: Provider<seq<byte>>, name: string)
    ensures MyAsset(asset, restAsset, name) == FirstHit([asset, restAsset], name)
  {
    assert [asset, restAsset][1..] == [restAsset];
  }

  /** The provider that stands for an asset set. */
  function Pick<T>(which: AssetSet, node: Provider<T>, rest: Provider<T>): Provider<T> {
    match which
    case CbftAssets => node
    case RestAssets => rest
  }

  /** The providers of an ordered list of asset sets, in that order. */
  function Providers<T>(order: seq<AssetSet>, node: Provider<T>, rest: Provider<T>): (ps: seq<Provider<T>>)
    ensures |ps| == |order|
    ensures forall i :: 0 <= i < |order| ==> ps[i] == Pick(order[i], node, rest)
  {
    if order == [] then [] else [Pick(order[0], node, rest)] + Providers(order[1..], node, rest)
  }

  /** LookupOrder, the order the REST group records, is the provider order of
      both lookups: each is the reference lookup over LookupOrder's providers. */
  lemma LookupOrderIsFirstHit(asset: Provider<seq<byte>>, restAsset: Provider<seq<byte>>,
                              assetDir: Provider<seq<string>>, restAssetDir: Provider<seq<string>>, name: string)
    ensures MyAsset(asset, restAsset, name) == FirstHit(Providers(LookupOrder, asset, restAsset), name)
    ensures MyAssetDir(assetDir, restAssetDir, name) == FirstHit(Providers(LookupOrder, assetDir, restAssetDir), name)
  {
    assert Providers(LookupOrder, asset, restAsset) == [asset, restAsset];
    assert Providers(LookupOrder, assetDir, restAssetDir) == [assetDir, restAssetDir];
    MyAssetIsFirstHit(asset, restAsset, name);
    MyAssetDirIsFirstHit(assetDir, restAssetDir, name);
  }

  /** On a primary hit the fallback is not consulted: its contents do not matter. */
  lemma MyAssetIgnoresFallbackOnHit(asset: Provider<seq<byte>>, restAsset: Provider<seq<byte>>,
                                    otherRestAsset: Provider<seq<byte>>, name: string)
    requires asset(name).err.None?
    ensures MyAsset(asset, restAsset, name) == MyAsset(asset, otherRestAsset, name) == asset(name)
  {
  }

  /** A lookup fails only when both asset sets fail, and then with the fallback's error. */
  lemma MyAssetBothMiss(asset: Provider<seq<byte>>, restAsset: Provider<seq<byte>>, name: string)
    ensures MyAsset(asset, restAsset, name).err.None? <==> asset(name).err.None? || restAsset(name).err.None?
    ensures MyAsset(asset, restAsset, name).err.Some? ==> MyAsset(asset, restAsset, name).err == restAsset(name).err
  {
  }
}
