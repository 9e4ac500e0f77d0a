/**
 * The browser's object-URL registry (`URL.createObjectURL` / `URL.revokeObjectURL`),
 * reduced to opaque handle tokens: which handles are live, and the log of every
 * revocation ever requested, so that "released exactly once" can be stated.
 */
module ObjectUrls {

  /** An object URL, as an opaque token. */
  type Handle = nat

  /** A binary payload (an audio clip or a rendered image); its bytes are not modelled. */
  datatype Blob = Blob(token: nat)

  class UrlRegistry {
    /** URLs created and not yet revoked. */
    var live: set<Handle>
    /** Every `revokeObjectURL` call, in order. */
    var revoked: seq<Handle>
    /** The next handle `createObjectURL` hands out. */
    var next: nat

    ghost predicate Valid()
      reads this
    {
      && (forall h :: h in live ==> h < next)
      && (forall i :: 0 <= i < |revoked| ==> revoked[i] < next && revoked[i] !in live)
    }

    constructor ()
      ensures Valid()
      ensures live == {} && revoked == []
    {
      live, revoked, next := {}, [], 0;
    }

    /** `URL.createObjectURL(blob)`: a handle never handed out before. */
    method Create() returns (h: Handle)
      requires Valid()
      modifies this
      ensures Valid()
      ensures h !in old(live) && h !in old(revoked)
      ensures live == old(live) + {h} && revoked == old(revoked)
      ensures h == old(next) && next == h + 1
    {
      h := next;
      next := next + 1;
      live := live + {h};
    }

    /** `URL.revokeObjectURL(h)`: a no-op on a handle that is not live, but logged either way. */
    method Revoke(h: Handle)
      requires Valid()
      modifies this
      ensures Valid()
      ensures live == old(live) - {h} && revoked == old(revoked) + [h]
      ensures old(next) <= next && h < next
    {
      if h >= next {
        next := h + 1;
      }
      live := live - {h};
      revoked := revoked + [h];
    }
  }
}
