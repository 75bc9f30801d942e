/**
 SafeQueue called by one thread at a time, the memory actions in the order of the source.
 Its representation is the one every run of the concurrent machine reaches at rest.
 */
module SafeQueueObject {
  import opened Prelude
  import opened SafeQueueSteps
  import opened SafeQueueInvariant
  import opened SafeQueueFifo

  /** Linking one more node behind the last. */
  lemma Linking(heap: map<Ref, Node>, chain: seq<Ref>, node: Ref, val: Value)
    requires ChainOk(heap, chain) && node != NULL && node !in chain
    ensures var heap' := heap[node := Node(val, NULL)];
            var heap'' := heap'[Last(chain) := heap'[Last(chain)].(next := node)];
            ChainOk(heap'', chain + [node]) && Values(heap'', chain + [node]) == Values(heap, chain) + [val]
  {
    var heap' := heap[node := Node(val, NULL)];
    var heap'' := heap'[Last(chain) := heap'[Last(chain)].(next := node)];
    assert ChainOk(heap'', chain + [node]);
  }

  /** Unlinking the dummy in front. */
  lemma Unlinking(heap: map<Ref, Node>, chain: seq<Ref>)
    requires ChainOk(heap, chain) && |chain| > 1
    ensures heap[chain[0]].next == chain[1]
    ensures var heap', chain' := heap - {chain[0]}, chain[1..];
            && ChainOk(heap', chain') && chain'[0] == chain[1] && Last(chain') == Last(chain)
            && [heap'[chain[1]].val] + Values(heap', chain') == Values(heap, chain)
    ensures (set a | a in chain[1..]) == (set a | a in chain) - {chain[0]}
  {
    var heap', chain' := heap - {chain[0]}, chain[1..];
    assert heap[chain[0]].next == chain[0 + 1];
    assert forall i | 0 <= i < |chain'| :: chain'[i] == chain[i + 1];
    assert ChainOk(heap', chain');
    var q := [heap'[chain[1]].val] + Values(heap', chain');
    assert |q| == |Values(heap, chain)|;
    forall i | 0 <= i < |q| ensures q[i] == Values(heap, chain)[i] {
      assert i > 0 ==> q[i] == ValAt(heap', chain'[i]) && chain'[i] == chain[i + 1];
    }
    assert chain == [chain[0]] + chain';
  }

  /** Of the nodes in heap0 exactly those of the chain from position k on are still in heap. */
  ghost predicate Remaining(heap0: map<Ref, Node>, heap: map<Ref, Node>, chain: seq<Ref>, k: nat)
    requires k <= |chain|
  {
    forall a :: (a in heap <==> a in chain[k..]) && (a in heap ==> a in heap0 && heap[a] == heap0[a])
  }

  lemma TailMembers(heap: map<Ref, Node>, chain: seq<Ref>, k: nat)
    requires ChainOk(heap, chain) && k < |chain|
    ensures heap[chain[k]].next == if k + 1 == |chain| then NULL else chain[k + 1]
    ensures chain[k] in chain[k..]
    ensures forall a :: a in chain[k + 1..] <==> a in chain[k..] && a != chain[k]
    ensures chain[..k] + [chain[k]] == chain[..k + 1]
  {
    assert chain[k..] == [chain[k]] + chain[k + 1..];
    assert forall i | k < i < |chain| :: chain[i] != chain[k];
  }

  /** The destructor has freed the first nodes of the chain and comes to node, or to its end. */
  ghost predicate FreedTo(
    heap0: map<Ref, Node>, heap: map<Ref, Node>, chain: seq<Ref>, freed: seq<Ref>, node: Ref)
  {
    && |freed| <= |chain| && freed == chain[..|freed|]
    && node == (if |freed| == |chain| then NULL else chain[|freed|])
    && Remaining(heap0, heap, chain, |freed|)
  }

  lemma Dropping(heap0: map<Ref, Node>, heap: map<Ref, Node>, chain: seq<Ref>, freed: seq<Ref>, node: Ref)
    requires ChainOk(heap0, chain) && FreedTo(heap0, heap, chain, freed, node) && node != NULL
    ensures |freed| < |chain| && node in heap && FreedTo(heap0, heap - {node}, chain, freed + [node], heap[node].next)
  {
    TailMembers(heap0, chain, |freed|);
  }

  lemma NoneFreed(heap: map<Ref, Node>, chain: seq<Ref>)
    requires ChainOk(heap, chain) && heap.Keys == (set a | a in chain)
    ensures FreedTo(heap, heap, chain, [], chain[0])
  {
    assert chain[0..] == chain;
  }

  lemma Emptied(heap0: map<Ref, Node>, heap: map<Ref, Node>, chain: seq<Ref>, freed: seq<Ref>)
    requires ChainOk(heap0, chain) && FreedTo(heap0, heap, chain, freed, NULL)
    ensures heap == map[] && freed == chain
  {
    assert chain[|chain|..] == [];
  }

  class SafeQueue {
    var heap: map<Ref, Node>
    var head: Ref
    var tail: Ref
    var size: int
    ghost var chain: seq<Ref>

    ghost predicate Valid()
      reads this
    {
      RestOk(heap, head, tail, size, chain)
    }

    ghost function Contents(): (q: seq<Value>)
      requires Valid()
      reads this
    {
      Values(heap, chain)
    }

    /** `node` is the address new returned for the dummy. */
    constructor (node: Ref)
      requires node != NULL
      ensures Valid() && Contents() == [] && size == 0
    {
      heap := map[node := Node(0, NULL)];
      head := node;
      tail := node;
      size := 0;
      chain := [node];
    }

    /** `node` is the address new returned. */
    method Push(val: Value, node: Ref)
      requires Valid() && node != NULL && node !in heap
      modifies this
      ensures Valid() && Contents() == old(Contents()) + [val]
      ensures heap.Keys == old(heap.Keys) + {node}
    {
      Linking(heap, chain, node, val);
      heap := heap[node := Node(0, NULL)];
      heap := heap[node := heap[node].(val := val)];
      heap := heap[node := heap[node].(next := NULL)];
      size := size + 1;
      heap := heap[tail := heap[tail].(next := node)];
      tail := node;
      assert heap[node] == Node(val, NULL);
      chain := chain + [node];
      assert heap == old(heap)[node := Node(val, NULL)][old(tail) := old(heap)[old(tail)].(next := node)];
    }

    /** pop asserts that the queue is not empty. */
    method Pop() returns (val: Value)
      requires Valid() && Contents() != []
      modifies this
      ensures Valid() && [val] + Contents() == old(Contents())
      ensures heap.Keys == old(heap.Keys) - {old(head)}
    {
      size := size - 1;
      var tmp := heap[head].next;
      Unlinking(heap, chain);
      heap := heap - {head};
      head := tmp;
      chain := chain[1..];
      val := heap[head].val;
    }

    /** The destructor frees every node exactly once, in chain order. */
    method Destroy() returns (freed: seq<Ref>)
      requires Valid()
      modifies this
      ensures heap == map[] && freed == old(chain) && Distinct(freed)
      ensures forall a :: a in freed <==> a in old(heap)
    {
      var node := head;
      freed := [];
      NoneFreed(heap, chain);
      while node != NULL
        invariant chain == old(chain) && FreedTo(old(heap), heap, chain, freed, node)
        decreases |chain| - |freed|
      {
        Dropping(old(heap), heap, chain, freed, node);
        var tmp := heap[node].next;
        heap := heap - {node};
        freed := freed + [node];
        node := tmp;
      }
      Emptied(old(heap), heap, chain, freed);
    }
  }
}
