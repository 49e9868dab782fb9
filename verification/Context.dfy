/** The layered key-value store of a provider's runtime configuration, a linked
    structure on the heap, and the stack of maps it stands for.
    Models worker/context.go.
 */
module Layers {
  import opened JobTypes

  /** A stack of layers, top first. */
  type Stack = seq<map<string, string>>

  /** What a stack shows: upper layers hide lower ones. */
  function Flatten(stack: Stack): map<string, string> {
    if stack == [] then map[] else Flatten(stack[1..]) + stack[0]
  }

  function Find(m: map<string, string>, key: string): Option<string> {
    if key in m then Some(m[key]) else None
  }

  class Context {
    var store: map<string, string>
    const parent: Context?
    /** This layer and all below it. */
    ghost const layers: seq<Context>

    ghost predicate Valid()
      decreases |layers|
    {
      && layers != []
      && layers[0] == this
      && (if parent == null then layers == [this]
          else
            && |parent.layers| < |layers| && layers == [this] + parent.layers
            && this !in parent.layers && parent.Valid())
    }

    ghost function Contents(): Stack
      reads layers
    {
      seq(|layers|, i requires 0 <= i < |layers| reads layers => layers[i].store)
    }

    constructor ()
      ensures Valid() && parent == null && store == map[] && Contents() == [map[]]
    {
      store, parent, layers := map[], null, [this];
    }

    constructor Above(below: Context)
      requires below.Valid()
      ensures Valid() && parent == below && store == map[] && Contents() == [map[]] + below.Contents()
    {
      store, parent, layers := map[], below, [this] + below.layers;
    }

    method Enter() returns (top: Context)
      requires Valid()
      ensures top.Valid() && fresh(top) && top.store == map[] && top.parent == this && top.layers == [top] + layers
      ensures top.Contents() == [map[]] + Contents()
    {
      top := new Context.Above(this);
    }

    /** The layer below; null, the error, at the bottom. */
    method Exit() returns (below: Context?)
      requires Valid()
      ensures below == null <==> |layers| == 1
      ensures below != null ==> below.Valid() && below.layers == layers[1..] && below.Contents() == Contents()[1..]
    {
      below := parent;
    }

    /** The recursive lookup finds what the flattened stack shows. */
    function Get(key: string): (r: Option<string>)
      requires Valid()
      reads layers
      ensures r == Find(Flatten(Contents()), key)
      decreases |layers|
    {
      if parent == null then
        assert Contents()[1..] == [];
        if key in store then Some(store[key]) else None
      else
        assert parent.layers == layers[1..] && forall c | c in parent.layers :: c in layers;
        assert Contents()[1..] == parent.Contents();
        if key in store then Some(store[key]) else parent.Get(key)
    }

    method Set(key: string, value: string)
      requires Valid()
      modifies this
      ensures store == old(store)[key := value]
      ensures Contents() == [old(store)[key := value]] + old(Contents())[1..]
      ensures forall k :: Get(k) == if k == key then Some(value) else old(Get(k))
    {
      store := store[key := value];
      assert forall i | 1 <= i < |layers| :: layers[i] != this && layers[i].store == old(layers[i].store) by {
        NotBelow();
      }
    }

    lemma NotBelow()
      requires Valid()
      ensures forall i | 1 <= i < |layers| :: layers[i] != this
    {
      if parent != null {
        assert forall i | 1 <= i < |layers| :: layers[i] == parent.layers[i - 1];
      }
    }
  }

  /** Entering a layer, setting anything there any number of times, and leaving
      it again restores every lookup. */
  method Bracket(ctx: Context, sets: seq<(string, string)>) returns (after: Context?)
    requires ctx.Valid()
    ensures after == ctx
    ensures ctx.Contents() == old(ctx.Contents())
    ensures forall key :: ctx.Get(key) == old(ctx.Get(key))
  {
    var top := ctx.Enter();
    for i := 0 to |sets|
      invariant top.Contents()[1..] == old(ctx.Contents()) == ctx.Contents()
    {
      top.Set(sets[i].0, sets[i].1);
    }
    after := top.Exit();
    assert forall key :: ctx.Get(key) == Find(Flatten(ctx.Contents()), key);
  }
}
