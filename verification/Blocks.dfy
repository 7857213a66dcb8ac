/** The block grid of a cached file: which block a byte belongs to, where a block starts and ends,
    and how one request is cut into pieces that never leave a block. */
module Blocks {
  import opened Prelude

  /** `remote` is the file on the server; `blksz`, `segbc` and `workers` are fixed when a cache is opened. */
  datatype Params = Params(remote: seq<byte>, blksz: nat, segbc: nat, workers: nat)

  function Lo(p: Params, b: nat): nat {
    b * p.blksz
  }

  /** Length of block `b`: the download request size after clamping to the file. */
  function Size(p: Params, b: nat): int {
    Min(p.blksz, |p.remote| - Lo(p, b))
  }

  function BlockOf(p: Params, i: nat): nat
    requires p.blksz > 0
  {
    i / p.blksz
  }

  /** End of the piece that starts at `start` when the request stops at `stop`. */
  function PieceEnd(p: Params, start: nat, stop: int): int
    requires p.blksz > 0
  {
    Min(Lo(p, BlockOf(p, start)) + p.blksz, stop)
  }

  /** True for the block that holds the tail of a file whose length is not a multiple of the block size. */
  predicate IsTail(p: Params, b: nat)
    requires p.blksz > 0
  {
    Lo(p, b) == Lo(p, BlockOf(p, |p.remote|))
  }

  lemma BlockBounds(p: Params, i: nat)
    requires p.blksz > 0
    ensures Lo(p, BlockOf(p, i)) <= i < Lo(p, BlockOf(p, i)) + p.blksz
  {
  }

  lemma LoMonotone(p: Params, b: nat, c: nat)
    ensures b < c ==> Lo(p, b) + p.blksz <= Lo(p, c)
  {
    if b < c {
      assert (b + 1) * p.blksz <= c * p.blksz;
    }
  }

  lemma BlockUnique(p: Params, b: nat, i: nat)
    requires p.blksz > 0
    requires Lo(p, b) <= i < Lo(p, b) + p.blksz
    ensures BlockOf(p, i) == b
  {
    BlockBounds(p, i);
    LoMonotone(p, BlockOf(p, i), b);
    LoMonotone(p, b, BlockOf(p, i));
  }

  lemma LoNext(p: Params, b: nat)
    ensures Lo(p, b + 1) == Lo(p, b) + p.blksz
  {
  }

  /** A whole download is either a full block or the file's tail block, so it is always stored. */
  lemma WholeBlockIsStored(p: Params, b: nat)
    requires p.blksz > 0 && Lo(p, b) < |p.remote|
    ensures Size(p, b) == p.blksz || IsTail(p, b)
  {
    if Size(p, b) != p.blksz {
      BlockUnique(p, b, |p.remote|);
    }
  }
}
