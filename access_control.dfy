/**
 * The origin/cookie access-control list of the WebPrint server: a map from a web page's
 * origin to the cookie that was minted when the local user allowed that origin.
 * Writing the list to disk after every change is not modelled (it has no effect on the map).
 */
module AccessControl {

  class AccessControl {
    var aclmap: map<string, string>

    /** With no saved list, the map starts empty. */
    constructor ()
      ensures aclmap == map[]
    {
      aclmap := map[];
    }

    /** Every origin of the list, each exactly once, in the map's iteration order. */
    method GetAcl() returns (list: seq<string>)
      ensures forall o :: o in list <==> o in aclmap
      ensures forall i, j :: 0 <= i < j < |list| ==> list[i] != list[j]
      ensures |list| == |aclmap|
    {
      list := [];
      var rest := aclmap.Keys;
      while rest != {}
        invariant rest <= aclmap.Keys
        invariant forall o :: o in list <==> o in aclmap && o !in rest
        invariant forall i, j :: 0 <= i < j < |list| ==> list[i] != list[j]
        invariant |list| + |rest| == |aclmap|
        decreases |rest|
      {
        var o :| o in rest;
        list := list + [o];
        rest := rest - {o};
      }
    }

    /** Stores `cookie` for `origin`, replacing any cookie stored for it before. */
    method Add(origin: string, cookie: string)
      modifies this
      ensures aclmap == old(aclmap)[origin := cookie]
      ensures origin in aclmap && aclmap[origin] == cookie
      ensures forall o :: o != origin ==> (o in aclmap <==> o in old(aclmap))
      ensures forall o :: o != origin && o in aclmap ==> aclmap[o] == old(aclmap)[o]
    {
      aclmap := aclmap[origin := cookie];
    }

    /** Forgets `origin`; nothing happens when it is not in the list. */
    method Remove(origin: string)
      modifies this
      ensures aclmap == old(aclmap) - {origin}
      ensures origin !in aclmap
      ensures forall o :: o != origin ==> (o in aclmap <==> o in old(aclmap))
      ensures forall o :: o != origin && o in aclmap ==> aclmap[o] == old(aclmap)[o]
    {
      aclmap := aclmap - {origin};
    }

    /** True exactly when `origin` is in the list and its stored cookie is `cookie`. */
    method IsAllowed(origin: string, cookie: string) returns (allowed: bool)
      ensures allowed <==> origin in aclmap && aclmap[origin] == cookie
    {
      allowed := false;
      if origin in aclmap {
        if aclmap[origin] == cookie {
          allowed := true;
        }
      }
    }
  }

  /** A list created with no saved file allows no origin with any cookie. */
  method FreshListAllowsNothing(origin: string, cookie: string) returns (allowed: bool)
    ensures !allowed
  {
    var acl := new AccessControl();
    allowed := acl.IsAllowed(origin, cookie);
  }

  /** After `Add(origin, cookie)` that cookie is allowed for `origin` and every other one is refused. */
  method AddThenCheck(acl: AccessControl, origin: string, cookie: string, other: string)
    returns (granted: bool, refused: bool)
    modifies acl
    ensures granted && (other != cookie ==> !refused)
    ensures acl.aclmap == old(acl.aclmap)[origin := cookie]
  {
    acl.Add(origin, cookie);
    granted := acl.IsAllowed(origin, cookie);
    refused := acl.IsAllowed(origin, other);
  }

  /** Removing an origin twice leaves the same list as removing it once, and no cookie is allowed for it. */
  method RemoveTwice(acl: AccessControl, origin: string, cookie: string) returns (allowed: bool)
    modifies acl
    ensures acl.aclmap == old(acl.aclmap) - {origin}
    ensures !allowed
  {
    acl.Remove(origin);
    ghost var once := acl.aclmap;
    acl.Remove(origin);
    assert acl.aclmap == once;
    allowed := acl.IsAllowed(origin, cookie);
  }
}
