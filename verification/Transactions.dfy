/** Transactions, their outpoints and the transaction index records
    (src/main.h: COutPoint, CTxOut, CTransaction, CDiskTxPos, CTxIndex). */
module Transactions {
  import opened Basics

  type Hash = nat

  const COIN: int := 100000000
  const MAX_TX: int := 30000000000 * COIN
  const MAX_BLOCK_SIZE: nat := 1000000
  const MAX_BLOCK_SIGOPS: nat := MAX_BLOCK_SIZE / 50
  const NULL_N: nat := 0xFFFF_FFFF

  predicate MoneyRange(v: int) { 0 <= v <= MAX_TX }

  datatype OutPoint = OutPoint(hash: Hash, n: nat) {
    predicate IsNull() { hash == 0 && n == NULL_N }
  }

  datatype TxOut = TxOut(nValue: int, script: seq<nat>) {
    predicate IsEmpty() { nValue == 0 && script == [] }
  }

  /** `hash` stands for GetHash(); `coinbaseHeight` for the block height that a
      coinbase input script starts with; `nSize` for the serialized size; `depth` is a
      model-only rank: an id is deeper than the ids it commits to. */
  datatype Tx = Tx(hash: Hash, nTime: int, coinbaseHeight: nat, vin: seq<OutPoint>, vout: seq<TxOut>, nSize: nat,
    depth: nat) {
    predicate IsCoinBase() { |vin| == 1 && vin[0].IsNull() && |vout| >= 1 }
    predicate IsCoinStake() { |vin| > 0 && !vin[0].IsNull() && |vout| >= 2 && vout[0].IsEmpty() }

    /** The outpoints whose spent marks this transaction takes over. */
    function Spends(): seq<OutPoint> { if IsCoinBase() then [] else vin }
  }

  /** What hashing gives for a pair of transactions: equal ids mean equal transactions,
      and a transaction is deeper than one it spends from. */
  predicate HashPair(a: Tx, b: Tx) {
    && (a.hash == b.hash ==> a == b)
    && (forall o :: o in a.Spends() && o.hash == b.hash ==> b.depth < a.depth)
  }

  function ValueOut(vout: seq<TxOut>): int {
    if vout == [] then 0 else ValueOut(vout[..|vout| - 1]) + vout[|vout| - 1].nValue
  }

  /** CTransaction::CheckTransaction, without the size limits. */
  predicate CheckTransaction(tx: Tx) {
    && tx.vin != [] && tx.vout != []
    && (forall i :: 0 <= i < |tx.vout| ==>
      && (tx.vout[i].IsEmpty() ==> tx.IsCoinBase() || tx.IsCoinStake())
      && MoneyRange(tx.vout[i].nValue)
      && MoneyRange(ValueOut(tx.vout[..i + 1])))
    && Distinct(tx.vin)
    && (!tx.IsCoinBase() ==> forall i :: 0 <= i < |tx.vin| ==> !tx.vin[i].IsNull())
  }

  datatype DiskTxPos = NullPos | Pos(nFile: nat, nBlockPos: nat, nTxPos: nat)

  /** CDiskTxPos(1,1,1) tells FetchInputs to look in the memory pool. */
  const MEMPOOL_POS: DiskTxPos := Pos(1, 1, 1)

  datatype TxIndex = TxIndex(pos: DiskTxPos, vSpent: seq<DiskTxPos>)

  type Index = map<Hash, TxIndex>
  type Disk = map<DiskTxPos, Tx>

  function Nulls(n: nat): (s: seq<DiskTxPos>)
    ensures |s| == n && forall i :: 0 <= i < n ==> s[i] == NullPos
  {
    seq(n, i => NullPos)
  }

  /** A transaction together with the place it is stored at. */
  datatype Stored = Stored(tx: Tx, pos: DiskTxPos)

  /** The index refers to stored transactions only, and has one mark per output. */
  ghost predicate WellFormed(idx: Index, disk: Disk) {
    forall h :: h in idx ==>
      && idx[h].pos in disk
      && disk[idx[h].pos].hash == h
      && |idx[h].vSpent| == |disk[idx[h].pos].vout|
  }
}
