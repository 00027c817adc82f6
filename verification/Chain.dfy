/** A chain that can reorganise.

    A block hash commits to the block's content and to its parent's hash and does not collide, so
    the model identifies a hash with the block it names: two blocks are the same hash exactly when
    they are the same value. A chain is its newest block, and the block at a height is an ancestor
    of that one. */
module Chain {
  type TxHash = nat
  type SessionId = nat

  /** One log of a block: an event of the exchange, or anything the codec decodes to nothing. */
  datatype Log =
    | ExchangeEvent(tx: TxHash, session: SessionId)
    | OtherLog(tx: TxHash)

  datatype Block = Genesis | Block(parent: Block, logs: seq<Log>)

  function Height(b: Block): nat {
    match b
    case Genesis => 0
    case Block(parent, _) => 1 + Height(parent)
  }

  function Logs(b: Block): seq<Log> {
    if b.Block? then b.logs else []
  }

  /** The block the chain ending in `tip` has at a height. */
  function At(tip: Block, n: nat): (b: Block)
    requires n <= Height(tip)
    ensures Height(b) == n
  {
    if n == Height(tip) then tip else At(tip.parent, n)
  }

  predicate OnChain(b: Block, tip: Block) {
    Height(b) <= Height(tip) && At(tip, Height(b)) == b
  }

  /** What makes a log row unique: block hash, transaction hash and index in the block. */
  datatype Key = Key(block: Block, tx: TxHash, index: nat)

  /** The key is that of an exchange event which really is in that block. */
  predicate IsEvent(k: Key) {
    k.index < |Logs(k.block)| &&
    Logs(k.block)[k.index].ExchangeEvent? &&
    Logs(k.block)[k.index].tx == k.tx
  }

  function SessionOf(k: Key): SessionId
    requires IsEvent(k)
  {
    Logs(k.block)[k.index].session
  }

  /** The exchange events of the first `n` logs of one block. */
  function EventsOfPrefix(b: Block, n: nat): (s: set<Key>)
    requires n <= |Logs(b)|
    ensures forall k :: k in s <==> IsEvent(k) && k.block == b && k.index < n
  {
    if n == 0 then {}
    else
      var log := Logs(b)[n - 1];
      EventsOfPrefix(b, n - 1) + (if log.ExchangeEvent? then {Key(b, log.tx, n - 1)} else {})
  }

  function EventsOf(b: Block): (s: set<Key>)
    ensures forall k :: k in s <==> IsEvent(k) && k.block == b
  {
    EventsOfPrefix(b, |Logs(b)|)
  }

  /** What `eth_getLogs` and decoding give for a range of heights: every exchange event in it. */
  function EventsIn(tip: Block, lo: nat, hi: nat): (s: set<Key>)
    requires hi <= Height(tip)
    ensures forall k :: k in s <==> IsEvent(k) && OnChain(k.block, tip) && lo <= Height(k.block) <= hi
    decreases hi
  {
    if hi < lo then {}
    else
      assert forall b :: OnChain(b, tip) && Height(b) == hi <==> b == At(tip, hi);
      (if hi == 0 then {} else EventsIn(tip, lo, hi - 1)) + EventsOf(At(tip, hi))
  }

  /** The events of one mined transaction: the logs of its receipt that decode. */
  function EventsOfTx(b: Block, tx: TxHash): (s: set<Key>)
    ensures forall k :: k in s <==> IsEvent(k) && k.block == b && k.tx == tx
  {
    set k | k in EventsOf(b) && k.tx == tx
  }
}
