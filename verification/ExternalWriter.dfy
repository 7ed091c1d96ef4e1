/** The block-wise write iterator over buffers the caller hands in
    (src/iarray_iterator.c), for chunks that are not compressed: each buffer is
    freed by the iterator once its block is stored.  `gone` is the memory that has
    been given back; using a buffer in it, or freeing it again, is what the
    preconditions rule out. */
module ExternalWriter {
  import opened Lists
  import opened Arith
  import opened Layout
  import opened Geometry
  import opened Errors
  import opened BlockIter

  class ExternalWriter<V(0)> {
    const shape: seq<nat>
    const blockShape: seq<nat>
    const eshape: seq<nat>
    const totalBlocks: nat
    const typesize: nat           // bytes of an item
    const overhead: nat           // bytes a buffer must have beyond its items
    const data: array<V>          // the container's elements
    var block: array<V>           // the buffer in use; empty before the first turn
    var nblock: nat
    var curIndex: Index
    var curShape: seq<nat>
    ghost var turns: seq<seq<V>>  // what the stored blocks held
    ghost var gone: set<array<V>> // the buffers freed so far

    ghost predicate Valid()
      reads this, data
    {
      && Shapes()
      && nblock <= totalBlocks
      && (nblock > 0 ==> Current())
      && (|turns| == nblock - 1 || |turns| == nblock)
      && AllWritten(data[..], shape, blockShape, turns)
      && |gone| == |turns|
      && (nblock > 0 ==> (block in gone <==> |turns| == nblock))
      && data !in gone
    }

    ghost predicate Shapes()
      reads this
    {
      && |shape| == |blockShape| == |eshape| && Positive(blockShape) && Positive(shape)
      && (forall i | 0 <= i < |shape| :: eshape[i] == RoundUp(shape[i], blockShape[i]))
      && totalBlocks == Prod(PieceCount(shape, blockShape)) && totalBlocks > 0
      && data.Length == Prod(shape) && typesize > 0
      && Positive(PieceCount(shape, blockShape))
    }

    /** The window handed out last, and a buffer that can take it. */
    ghost predicate Current()
      requires 0 < nblock && |shape| == |blockShape| && Positive(blockShape) && Positive(PieceCount(shape, blockShape))
      reads this
    {
      && curIndex == Unflatten(PieceCount(shape, blockShape), nblock - 1)
      && curShape == WindowShape(shape, blockShape, curIndex)
      && block != data && block.Length >= Prod(blockShape)
    }

    /** The turn that is open, if any, still has its memory. */
    ghost predicate Alive()
      reads this
    {
      nblock > 0 ==> block !in gone
    }

    constructor (g: Geometry, data: array<V>, typesize: nat, overhead: nat)
      requires g.Valid() && Positive(g.shape) && data.Length == Prod(g.shape) && typesize > 0
      ensures Valid() && nblock == 0 && turns == [] && gone == {}
      ensures shape == g.shape && blockShape == g.chunkshape && this.data == data
      ensures this.typesize == typesize && this.overhead == overhead
    {
      shape, blockShape, eshape := g.shape, g.chunkshape, g.ExtShape();
      totalBlocks := Prod(PieceCount(g.shape, g.chunkshape));
      this.data, this.typesize, this.overhead := data, typesize, overhead;
      nblock, curIndex, curShape, turns, gone := 0, [], [], [], {};
      block := new V[0];
      new;
      ProdPositive(PieceCount(g.shape, g.chunkshape));
    }

    /** Stores the block of the turn that ends, and frees its buffer. */
    method Flush()
      requires Valid() && nblock > 0 && block !in gone
      modifies data, this`turns, this`gone
      ensures Valid() && turns == old(turns) + [old(block[..])] && gone == old(gone) + {block}
    {
      hide Prod, Unflatten, Written, OnlyWindow;
      ghost var before := data[..];
      UnflattenInShape(PieceCount(shape, blockShape), nblock - 1);
      var start := IndexStart(curIndex, blockShape);
      WindowShapePositive(shape, blockShape, curIndex);
      ProdMono(curShape, blockShape);
      SetSlice(data, shape, blockShape, curIndex, start, curShape, block);
      assert turns[..nblock - 1] == turns;
      FlushKeeps(before, data[..], shape, blockShape, turns, nblock - 1, block[..]);
      turns := turns + [block[..]];
      gone := gone + {block};
    }

    /** iarray_iter_write_block_next: the open turn is stored and its buffer freed
        before the new buffer is looked at.  A buffer that is too small therefore
        ends the iteration: nothing is alive that a second try could store. */
    method Next(buffer: array<V>, bufsize: nat) returns (r: Result<()>)
      requires Valid() && nblock < totalBlocks && Alive()
      requires buffer !in gone && buffer != block && buffer != data && buffer.Length * typesize >= bufsize
      modifies this`block, this`nblock, this`curIndex, this`curShape, this`turns, this`gone, data
      ensures Valid()
      ensures r.Success? <==> bufsize >= Prod(blockShape) * typesize + overhead
      ensures turns == old(turns) + if old(nblock) == 0 then [] else [old(block[..])]
      ensures gone == old(gone) + if old(nblock) == 0 then {} else {old(block)}
      ensures r.Success? ==> nblock == old(nblock) + 1 && block == buffer && Alive()
      ensures r.Failure? ==> r.error == TooSmallBuffer && nblock == old(nblock) && (Alive() <==> nblock == 0)
    {
      hide Prod, Unflatten, AllWritten;
      if nblock != 0 {
        Flush();
      }
      if bufsize < Prod(blockShape) * typesize + overhead {
        return Failure(TooSmallBuffer);
      }
      BufferFits(buffer.Length, Prod(blockShape), typesize, bufsize, overhead);
      block := buffer;
      curIndex, curShape := WriteWindow(shape, blockShape, eshape, nblock);
      nblock := nblock + 1;
      return Success(());
    }

    /** Asking whether there is more is in order until it has once said no. */
    ghost predicate CanAsk()
      reads this
    {
      nblock == totalBlocks ==> Alive()
    }

    /** iarray_iter_write_block_has_next: at the end it stores the last block and
        frees its buffer, so it must not be asked a second time there. */
    method HasNext() returns (more: bool)
      requires Valid() && CanAsk()
      modifies data, this`turns, this`gone
      ensures Valid() && (more <==> nblock < totalBlocks)
      ensures more ==> data[..] == old(data[..]) && turns == old(turns) && gone == old(gone)
      ensures !more ==> turns == old(turns) + [old(block[..])] && gone == old(gone) + {block} && !CanAsk()
    {
      hide Prod, Unflatten, AllWritten;
      if nblock == totalBlocks {
        Flush();
      }
      more := nblock < totalBlocks;
    }
  }

  lemma BufferFits(length: nat, items: nat, typesize: nat, bufsize: nat, overhead: nat)
    requires typesize > 0 && length * typesize >= bufsize >= items * typesize + overhead
    ensures length >= items
  {
    if length < items { MulMono(length + 1, items, typesize); }
  }

  /** The block of window `n` as the client fills it. */
  ghost predicate Filled<V>(turn: seq<V>, S: seq<nat>, B: seq<nat>, n: nat, val: Index -> V)
    requires |S| == |B| && Positive(B) && n < Prod(PieceCount(S, B)) && Positive(PieceCount(S, B))
  {
    var c := Unflatten(PieceCount(S, B), n);
    HoldsSlice(turn, WindowShape(S, B, c), WindowStart(B, c), WindowShape(S, B, c), val)
  }

  /** The client's part of a turn: the items of the window, in its own layout. */
  method Fill<V(0)>(it: ExternalWriter<V>, val: Index -> V)
    requires it.Valid() && it.nblock > 0 && it.Alive()
    modifies it.block
    ensures it.Valid() && Filled(it.block[..], it.shape, it.blockShape, it.nblock - 1, val)
  {
    hide Prod, Unflatten, HoldsSlice, AllWritten;
    UnflattenInShape(PieceCount(it.shape, it.blockShape), it.nblock - 1);
    WindowShapePositive(it.shape, it.blockShape, it.curIndex);
    ProdMono(it.curShape, it.blockShape);
    var start := IndexStart(it.curIndex, it.blockShape);
    GetSlice(val, start, it.curShape, it.curShape, it.block);
  }

  /** Filled turns, stored, are the array of `val`. */
  lemma StoredValue<V>(data: seq<V>, S: seq<nat>, B: seq<nat>, turns: seq<seq<V>>, val: Index -> V, x: Index)
    requires |S| == |B| && Positive(B) && Positive(PieceCount(S, B)) && AllWritten(data, S, B, turns)
    requires |turns| == Prod(PieceCount(S, B)) && InShape(S, x)
    requires forall n: nat | n < |turns| :: Filled(turns[n], S, B, n, val)
    ensures Flatten(S, x) < |data| && data[Flatten(S, x)] == val(x)
  {
    hide Prod, Flatten, Unflatten, AllWritten;
    ElementWritten(data, S, B, turns, x);
    InWindow(S, B, x);
    var k := Flatten(PieceCount(S, B), Quotients(x, B));
    assert Filled(turns[k], S, B, k, val);
  }

  lemma RoomEnough(size: nat, typesize: nat)
    requires typesize > 0
    ensures size * typesize >= size
  {}

  lemma AllHanded<T>(handed: seq<T>, b: T)
    ensures (set x | x in handed + [b]) == (set x | x in handed) + {b}
  {}

  /** What is stored, and what is about to be, are the blocks of `val`. */
  ghost predicate Faithful<V(0)>(it: ExternalWriter<V>, val: Index -> V)
    requires it.Valid()
    reads it, it.data, it.block
  {
    && (forall n: nat | n < |it.turns| :: Filled(it.turns[n], it.shape, it.blockShape, n, val))
    && (it.nblock > 0 && it.Alive() ==> Filled(it.block[..], it.shape, it.blockShape, it.nblock - 1, val))
  }

  /** One turn of a client: a fresh buffer, handed in and filled. */
  method Turn<V(0)>(it: ExternalWriter<V>, val: Index -> V) returns (buffer: array<V>)
    requires it.Valid() && it.nblock < it.totalBlocks && it.Alive() && Faithful(it, val)
    modifies it, it.data
    ensures fresh(buffer) && it.Valid() && it.nblock == old(it.nblock) + 1 && it.block == buffer && it.Alive()
    ensures it.gone == old(it.gone) + if old(it.nblock) == 0 then {} else {old(it.block)}
    ensures Faithful(it, val)
  {
    hide Prod, Unflatten, AllWritten, Filled;
    var size := Prod(it.blockShape) * it.typesize + it.overhead;
    buffer := new V[size];
    RoomEnough(size, it.typesize);
    var ok := it.Next(buffer, size);
    Fill(it, val);
  }

  /** Asking for more keeps it so. */
  method More<V(0)>(it: ExternalWriter<V>, val: Index -> V) returns (more: bool)
    requires it.Valid() && it.CanAsk() && Faithful(it, val)
    modifies it, it.data
    ensures it.Valid() && (more <==> it.nblock < it.totalBlocks) && it.nblock == old(it.nblock)
    ensures it.block == old(it.block)
    ensures Faithful(it, val)
    ensures if more then it.gone == old(it.gone) && (it.Alive() <==> old(it.Alive()))
            else it.gone == old(it.gone) + {it.block} && |it.turns| == it.totalBlocks
  {
    hide Prod, Unflatten, AllWritten, Filled;
    more := it.HasNext();
  }

  /** At the end everything is in the array, and as many buffers are freed as there are blocks. */
  lemma AllStored<V(0)>(it: ExternalWriter<V>, val: Index -> V)
    requires it.Valid() && Faithful(it, val) && |it.turns| == it.totalBlocks
    ensures |it.data[..]| == Prod(it.shape)
    ensures |it.gone| == it.totalBlocks == Prod(PieceCount(it.shape, it.blockShape))
    ensures forall x | InShape(it.shape, x) ::
              Flatten(it.shape, x) < |it.data[..]| && it.data[..][Flatten(it.shape, x)] == val(x)
  {
    hide Prod, Flatten, Unflatten, PieceCount, AllWritten, Filled;
    forall x | InShape(it.shape, x)
      ensures Flatten(it.shape, x) < |it.data[..]| && it.data[..][Flatten(it.shape, x)] == val(x)
    {
      StoredValue(it.data[..], it.shape, it.blockShape, it.turns, val, x);
    }
  }

  /** A client that hands in a fresh buffer for every block and asks for more
      until told there is none: every element is stored, and every buffer has
      been freed, each once. */
  method StoreAll<V(0)>(g: Geometry, val: Index -> V, typesize: nat, overhead: nat)
    returns (r: seq<V>, ghost handed: seq<array<V>>, ghost freed: set<array<V>>)
    requires g.Valid() && Positive(g.shape) && typesize > 0
    ensures |r| == Prod(g.shape)
    ensures forall x | InShape(g.shape, x) :: Flatten(g.shape, x) < |r| && r[Flatten(g.shape, x)] == val(x)
    ensures |handed| == Prod(PieceCount(g.shape, g.chunkshape)) == |freed|
    ensures freed == set b | b in handed
  {
    var data := new V[Prod(g.shape)];
    var it := new ExternalWriter(g, data, typesize, overhead);
    assert it.CanAsk() && it.Alive() && Faithful(it, val) && it.totalBlocks > 0;
    hide Prod, Flatten, Unflatten, PieceCount, AllWritten, Faithful, Filled, ExternalWriter.Valid;
    handed := [];
    var more := More(it, val);
    while more
      invariant fresh(it) && it.data == data && it.shape == g.shape && it.blockShape == g.chunkshape
      invariant it.Valid() && (more <==> it.nblock < it.totalBlocks) && |handed| == it.nblock <= it.totalBlocks
      invariant Faithful(it, val)
      invariant if more then it.Alive() else |it.turns| == it.totalBlocks
      invariant (set b | b in handed) == it.gone + if more && it.nblock > 0 then {it.block} else {}
      decreases it.totalBlocks - it.nblock, more
    {
      var buffer := Turn(it, val);
      AllHanded(handed, buffer);
      handed := handed + [buffer];
      more := More(it, val);
    }
    r, freed := data[..], it.gone;
    AllStored(it, val);
  }
}
