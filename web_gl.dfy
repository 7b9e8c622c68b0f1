/** The part of a WebGL context a skin uses: creating and deleting textures.
    A texture is an opaque integer handle. */
module WebGl {

  class Context {
    /** Handles currently allocated and not yet deleted. */
    var live: set<int>
    /** The handle the next allocation returns. */
    var nextHandle: int
    /** Every deletion performed, in order. */
    var deleted: seq<int>

    ghost predicate Valid()
      reads this
    {
      forall h :: h in live ==> h < nextHandle
    }

    constructor ()
      ensures Valid() && live == {} && deleted == []
    {
      live := {};
      nextHandle := 1;
      deleted := [];
    }

    /** Allocates a texture whose handle is distinct from every live one. */
    method CreateTexture() returns (h: int)
      requires Valid()
      modifies this
      ensures Valid()
      ensures h !in old(live) && live == old(live) + {h}
      ensures deleted == old(deleted)
    {
      h := nextHandle;
      live := live + {h};
      nextHandle := nextHandle + 1;
    }

    /** Deletes a texture and records the deletion. */
    method DeleteTexture(h: int)
      requires Valid()
      modifies this
      ensures Valid()
      ensures live == old(live) - {h} && nextHandle == old(nextHandle)
      ensures deleted == old(deleted) + [h]
    {
      live := live - {h};
      deleted := deleted + [h];
    }
  }
}
