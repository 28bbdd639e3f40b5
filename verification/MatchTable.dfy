/** The table that matches receives with arrived messages: hash buckets, each a chain of rows of three slots. */
module MatchTable {

  const WORD: nat := 0x1_0000_0000_0000_0000
  const EMPTY: nat := WORD - 1
  const ROW: nat := 3

  datatype Side = Client | Server

  function Opposite(side: Side): Side {
    if side.Client? then Server else Client
  }

  function Code(side: Side): nat {
    if side.Client? then 0 else 1
  }

  /** A key shifted left by one in a word of 64 bits, with the side in the lowest bit. */
  function Tag(key: nat, side: Side): nat {
    (2 * key) % WORD + Code(side)
  }

  /** The tag an insert looks for: the same key, the other side. */
  function CompareTag(key: nat, side: Side): nat {
    (2 * key) % WORD + (1 - Code(side))
  }

  /** Keys that keep all their bits in the shift and do not give the tag that marks an empty slot. */
  predicate Usable(key: nat) {
    2 * key + 1 < EMPTY
  }

  /** Usable keys have tags of their own, none of them the empty mark. */
  lemma TagsDiffer(a: nat, s: Side, b: nat, t: Side)
    requires Usable(a) && Usable(b)
    ensures Tag(a, s) == Tag(b, t) <==> a == b && s == t
    ensures Tag(a, s) != EMPTY
  {
  }

  lemma ComparesOpposite(key: nat, side: Side)
    ensures CompareTag(key, side) == Tag(key, Opposite(side))
  {
  }

  /** A 64-bit key is usable exactly when its server tag does not mark an empty slot and its client tag still tells the
      key. */
  lemma UsableIffAlone(key: nat)
    requires key < WORD
    ensures Usable(key) <==>
      Tag(key, Server) != EMPTY && key == Tag(key, Client) / 2
  {
  }

  // ----- One bucket -----

  datatype Slot<V> = Slot(tag: nat, val: V)

  /** The slots of a bucket: its first row, then the rows linked to it. */
  type Chain<V> = seq<Slot<V>>

  /** Position of the first slot with a tag; the length of the chain if there is none. */
  function FirstWith<V>(chain: Chain<V>, tag: nat): (i: nat)
    ensures i <= |chain|
    ensures i < |chain| ==> chain[i].tag == tag
    ensures forall j :: 0 <= j < i ==> chain[j].tag != tag
  {
    if chain == [] || chain[0].tag == tag then 0 else 1 + FirstWith(chain[1..], tag)
  }

  /** Position after the last occupied slot. */
  function UsedLength<V>(chain: Chain<V>): (n: nat)
    ensures n <= |chain|
    ensures n > 0 ==> chain[n - 1].tag != EMPTY
    ensures forall j :: n <= j < |chain| ==> chain[j].tag == EMPTY
  {
    if chain == [] then 0
    else if chain[|chain| - 1].tag != EMPTY then |chain|
    else UsedLength(chain[..|chain| - 1])
  }

  function EmptyRow<V>(zero: V): (row: Chain<V>)
    ensures |row| == ROW && forall j :: 0 <= j < ROW ==> row[j] == Slot(EMPTY, zero)
  {
    [Slot(EMPTY, zero), Slot(EMPTY, zero), Slot(EMPTY, zero)]
  }

  /** A chain of whole rows, at least one. */
  predicate Rows<V>(chain: Chain<V>) {
    |chain| > 0 && |chain| % ROW == 0
  }

  /** The chain with room behind its last occupied slot: one more row if there was none. */
  function Room<V>(chain: Chain<V>, zero: V): (room: Chain<V>)
    ensures UsedLength(chain) < |room|
    ensures forall j :: UsedLength(chain) <= j < |room| ==> room[j].tag == EMPTY
  {
    if UsedLength(chain) == |chain| then chain + EmptyRow(zero) else chain
  }

  /** What an insert leaves, whether it inserted, and else the value it took out. */
  datatype Outcome<V> = Outcome(chain: Chain<V>, inserted: bool, value: V)

  function Insert<V>(chain: Chain<V>, key: nat, value: V, side: Side, zero: V): Outcome<V> {
    var i := FirstWith(chain, CompareTag(key, side));
    if i < |chain| then Outcome(chain[i := chain[i].(tag := EMPTY)], false, chain[i].val)
    else
      Outcome(Room(chain, zero)[UsedLength(chain) := Slot(Tag(key, side), value)], true, value)
  }

  /** The loop over the slots, row by row, remembering the first empty slot after the last occupied one. */
  method InsertLoop<V>(chain: Chain<V>, key: nat, value: V, side: Side, zero: V) returns (out: Outcome<V>)
    requires Rows(chain)
    ensures out == Insert(chain, key, value, side, zero) && Rows(out.chain)
  {
    var cmpKey := CompareTag(key, side);
    var i, checkedSlot := 0, 0;
    var emptyAt := -1;
    while true
      invariant 0 <= i < |chain| && 0 <= checkedSlot < ROW && checkedSlot == i % ROW
      invariant forall j :: 0 <= j < i ==> chain[j].tag != cmpKey
      invariant -1 <= emptyAt < i
      invariant emptyAt >= 0 ==> forall j :: emptyAt <= j < i ==> chain[j].tag == EMPTY
      invariant if emptyAt >= 0 then emptyAt > 0 ==> chain[emptyAt - 1].tag != EMPTY else i > 0 ==> chain[i - 1].tag != EMPTY
      decreases |chain| - i
    {
      var tag := chain[i].tag;
      if tag == cmpKey {
        FirstIs(chain, cmpKey, i);
        return Outcome(chain[i := chain[i].(tag := EMPTY)], false, chain[i].val);
      } else if tag == EMPTY {
        if emptyAt == -1 { emptyAt := i; }
      } else {
        emptyAt := -1;
      }
      i := i + 1;
      checkedSlot := checkedSlot + 1;
      if checkedSlot == ROW {
        if i == |chain| { break; }
        checkedSlot := 0;
      }
    }
    FirstIs(chain, cmpKey, |chain|);
    UsedIs(chain, if emptyAt == -1 then |chain| else emptyAt);
    out := Place(chain, emptyAt, key, value, side, zero);
  }

  /** Store behind the last occupied slot, in a new row if the last row is full. */
  method Place<V>(chain: Chain<V>, emptyAt: int, key: nat, value: V, side: Side, zero: V) returns (out: Outcome<V>)
    requires Rows(chain) && FirstWith(chain, CompareTag(key, side)) == |chain|
    requires -1 <= emptyAt < |chain| && UsedLength(chain) == if emptyAt == -1 then |chain| else emptyAt
    ensures out == Insert(chain, key, value, side, zero) && Rows(out.chain)
  {
    var room, at := chain, emptyAt;
    if emptyAt == -1 {
      room := chain + EmptyRow(zero);
      OneMoreRow(|chain|);
      at := |chain|;
    }
    return Outcome(room[at := Slot(Tag(key, side), value)], true, value);
  }

  lemma OneMoreRow(n: nat)
    ensures (n + ROW) % ROW == n % ROW
  {
  }

  lemma FirstIs<V>(chain: Chain<V>, tag: nat, i: nat)
    requires i <= |chain| && (i < |chain| ==> chain[i].tag == tag) && forall j :: 0 <= j < i ==> chain[j].tag != tag
    ensures FirstWith(chain, tag) == i
  {
  }

  lemma UsedIs<V>(chain: Chain<V>, n: nat)
    requires n <= |chain| && (n > 0 ==> chain[n - 1].tag != EMPTY) && forall j :: n <= j < |chain| ==> chain[j].tag == EMPTY
    ensures UsedLength(chain) == n
  {
  }

  // ----- What a bucket stands for -----

  /** The values stored under a tag, oldest first. */
  function Values<V>(chain: Chain<V>, tag: nat): seq<V> {
    if chain == [] then []
    else (if chain[0].tag == tag then [chain[0].val] else []) + Values(chain[1..], tag)
  }

  lemma {:induction false} ValuesConcat<V>(a: Chain<V>, b: Chain<V>, tag: nat)
    ensures Values(a + b, tag) == Values(a, tag) + Values(b, tag)
  {
    if a == [] {
      assert a + b == b;
    } else {
      assert (a + b)[1..] == a[1..] + b;
      ValuesConcat(a[1..], b, tag);
      var head := if a[0].tag == tag then [a[0].val] else [];
      assert head + (Values(a[1..], tag) + Values(b, tag)) == head + Values(a[1..], tag) + Values(b, tag);
    }
  }

  lemma {:induction false} NoValues<V>(chain: Chain<V>, tag: nat)
    requires forall j :: 0 <= j < |chain| ==> chain[j].tag != tag
    ensures Values(chain, tag) == []
  {
    if chain != [] { NoValues(chain[1..], tag); }
  }

  /** Replacing one slot replaces what it contributes. */
  lemma ValuesUpdate<V>(chain: Chain<V>, i: nat, s: Slot<V>, tag: nat)
    requires i < |chain|
    ensures Values(chain, tag) ==
      Values(chain[..i], tag) + (if chain[i].tag == tag then [chain[i].val] else []) + Values(chain[i + 1..], tag)
    ensures Values(chain[i := s], tag) ==
      Values(chain[..i], tag) + (if s.tag == tag then [s.val] else []) + Values(chain[i + 1..], tag)
  {
    assert chain == chain[..i] + [chain[i]] + chain[i + 1..];
    assert chain[i := s] == chain[..i] + [s] + chain[i + 1..];
    ValuesConcat(chain[..i], [chain[i]], tag);
    ValuesConcat(chain[..i] + [chain[i]], chain[i + 1..], tag);
    ValuesConcat(chain[..i], [s], tag);
    ValuesConcat(chain[..i] + [s], chain[i + 1..], tag);
  }

  /** When the other side is waiting, an insert takes its oldest value and leaves every other queue alone. */
  lemma InsertMatches<V>(chain: Chain<V>, key: nat, value: V, side: Side, zero: V, tag: nat)
    requires Usable(key) && Values(chain, Tag(key, Opposite(side))) != [] && tag != EMPTY
    ensures var out, other := Insert(chain, key, value, side, zero), Tag(key, Opposite(side));
      && !out.inserted && out.value == Values(chain, other)[0]
      && Values(out.chain, tag) == if tag == other then Values(chain, tag)[1..] else Values(chain, tag)
  {
    ComparesOpposite(key, side);
    var other := Tag(key, Opposite(side));
    var i := FirstWith(chain, other);
    if i == |chain| { NoValues(chain, other); }
    NoValues(chain[..i], other);
    TagsDiffer(key, side, key, Opposite(side));
    ValuesUpdate(chain, i, chain[i].(tag := EMPTY), tag);
    ValuesUpdate(chain, i, chain[i].(tag := EMPTY), other);
  }

  lemma RoomKeepsValues<V>(chain: Chain<V>, zero: V, tag: nat)
    requires tag != EMPTY
    ensures Values(Room(chain, zero), tag) == Values(chain, tag)
  {
    ValuesConcat(chain, EmptyRow(zero), tag);
    NoValues(EmptyRow(zero), tag);
  }

  lemma SomeValue<V>(chain: Chain<V>, i: nat)
    requires i < |chain|
    ensures Values(chain, chain[i].tag) != []
  {
    ValuesUpdate(chain, i, chain[i], chain[i].tag);
  }

  lemma StoredLast<V>(room: Chain<V>, n: nat, s: Slot<V>, tag: nat)
    requires n < |room| && (forall j :: n <= j < |room| ==> room[j].tag == EMPTY) && tag != EMPTY
    ensures Values(room[n := s], tag) == Values(room, tag) + if s.tag == tag then [s.val] else []
  {
    NoValues(room[n + 1..], tag);
    ValuesUpdate(room, n, s, tag);
  }

  lemma NobodyWaits<V>(chain: Chain<V>, tag: nat)
    requires Values(chain, tag) == []
    ensures FirstWith(chain, tag) == |chain|
  {
    if FirstWith(chain, tag) < |chain| { SomeValue(chain, FirstWith(chain, tag)); }
  }

  /** When it is not, an insert adds its value behind all others and leaves every other queue alone. */
  lemma InsertAppends<V>(chain: Chain<V>, key: nat, value: V, side: Side, zero: V, tag: nat)
    requires Usable(key) && Values(chain, Tag(key, Opposite(side))) == [] && tag != EMPTY
    ensures var out := Insert(chain, key, value, side, zero);
      && out.inserted
      && Values(out.chain, tag) == if tag == Tag(key, side) then Values(chain, tag) + [value] else Values(chain, tag)
  {
    ComparesOpposite(key, side);
    NobodyWaits(chain, Tag(key, Opposite(side)));
    RoomKeepsValues(chain, zero, tag);
    StoredLast(Room(chain, zero), UsedLength(chain), Slot(Tag(key, side), value), tag);
  }

  /** The two cases together, for the queue of any key k on any side s. */
  lemma BucketInsertQueues<V>(chain: Chain<V>, key: nat, value: V, side: Side, zero: V, k: nat, s: Side)
    requires Usable(key) && Usable(k)
    ensures var out, other := Insert(chain, key, value, side, zero), Values(chain, Tag(key, Opposite(side)));
      && out.inserted == (other == [])
      && (other != [] ==> out.value == other[0])
      && Values(out.chain, Tag(k, s)) ==
           if k == key && s == side && other == [] then Values(chain, Tag(k, s)) + [value]
           else if k == key && s != side && other != [] then other[1..]
           else Values(chain, Tag(k, s))
  {
    TagsDiffer(key, side, k, s);
    TagsDiffer(key, Opposite(side), k, s);
    if Values(chain, Tag(key, Opposite(side))) == [] { InsertAppends(chain, key, value, side, zero, Tag(k, s)); }
    else { InsertMatches(chain, key, value, side, zero, Tag(k, s)); }
  }

  // ----- The table -----

  /** Every bucket starts as one empty row; a bucket not mentioned is still in that state. */
  type Buckets<V> = map<nat, Chain<V>>

  function ChainAt<V>(buckets: Buckets<V>, b: nat, zero: V): Chain<V> {
    if b in buckets then buckets[b] else EmptyRow(zero)
  }

  /** Who waits under a key on one side, oldest first. */
  function Queue<V>(buckets: Buckets<V>, hash: nat -> nat, key: nat, side: Side, zero: V): seq<V> {
    Values(ChainAt(buckets, hash(key), zero), Tag(key, side))
  }

  function TableInsert<V>(buckets: Buckets<V>, hash: nat -> nat, key: nat, value: V, side: Side, zero: V)
    : (Buckets<V>, Outcome<V>)
  {
    var out := Insert(ChainAt(buckets, hash(key), zero), key, value, side, zero);
    (buckets[hash(key) := out.chain], out)
  }

  class Table<V> {
    const hash: nat -> nat
    const zero: V
    var buckets: Buckets<V>

    ghost predicate Valid()
      reads this
    {
      forall b :: b in buckets ==> Rows(buckets[b])
    }

    constructor (hash: nat -> nat, zero: V)
      ensures Valid() && this.hash == hash && this.zero == zero && buckets == map[]
    {
      this.hash, this.zero, this.buckets := hash, zero, map[];
    }

    /** Returns 1 when the value was stored, 0 when a value of the other side was taken out instead. */
    method InsertInto(key: nat, value: V, side: Side) returns (ret: int, taken: V)
      requires Valid()
      modifies this
      ensures Valid()
      ensures buckets == TableInsert(old(buckets), hash, key, value, side, zero).0
      ensures ret == if TableInsert(old(buckets), hash, key, value, side, zero).1.inserted then 1 else 0
      ensures taken == TableInsert(old(buckets), hash, key, value, side, zero).1.value
    {
      var b := hash(key);
      var chain := if b in buckets then buckets[b] else EmptyRow(zero);
      var out := InsertLoop(chain, key, value, side, zero);
      buckets := buckets[b := out.chain];
      ret := if out.inserted then 1 else 0;
      taken := out.value;
    }
  }

  /** An insert takes the oldest waiting value of the other side, or waits itself behind all others; nobody else is
      touched, in its own bucket or another. */
  lemma TableInsertQueues<V>(buckets: Buckets<V>, hash: nat -> nat, key: nat, value: V, side: Side, zero: V,
                             k: nat, s: Side)
    requires Usable(key) && Usable(k)
    ensures var (after, out) := TableInsert(buckets, hash, key, value, side, zero);
      var other := Queue(buckets, hash, key, Opposite(side), zero);
      && out.inserted == (other == [])
      && (other != [] ==> out.value == other[0])
      && Queue(after, hash, k, s, zero) ==
           if k == key && s == side && other == [] then Queue(buckets, hash, k, s, zero) + [value]
           else if k == key && s != side && other != [] then other[1..]
           else Queue(buckets, hash, k, s, zero)
  {
    var chain := ChainAt(buckets, hash(key), zero);
    BucketInsertQueues(chain, key, value, side, zero, k, s);
    BucketInsertQueues(chain, key, value, side, zero, key, side);
  }

  // ----- Runs -----

  /** A receive posted, or a message arrived, under a key. */
  datatype Post<V> = Post(key: nat, side: Side, value: V)

  ghost predicate UsableKeys<V>(posts: seq<Post<V>>) {
    forall j :: 0 <= j < |posts| ==> Usable(posts[j].key)
  }

  function After<V>(posts: seq<Post<V>>, hash: nat -> nat, zero: V): Buckets<V>
    decreases |posts|
  {
    if posts == [] then map[]
    else
      var p := posts[|posts| - 1];
      TableInsert(After(posts[..|posts| - 1], hash, zero), hash, p.key, p.value, p.side, zero).0
  }

  /** The values posted under a key on one side, in order. */
  function Posted<V>(posts: seq<Post<V>>, key: nat, side: Side): seq<V>
    decreases |posts|
  {
    if posts == [] then []
    else
      var p := posts[|posts| - 1];
      Posted(posts[..|posts| - 1], key, side) + if p.key == key && p.side == side then [p.value] else []
  }

  /** The pairs (receive, message) matched under a key, in the order in which they were matched. */
  function Matched<V>(posts: seq<Post<V>>, hash: nat -> nat, zero: V, key: nat): seq<(V, V)>
    decreases |posts|
  {
    if posts == [] then []
    else
      var p := posts[|posts| - 1];
      var out := TableInsert(After(posts[..|posts| - 1], hash, zero), hash, p.key, p.value, p.side, zero).1;
      Matched(posts[..|posts| - 1], hash, zero, key)
      + if p.key == key && !out.inserted then [Pair(p, out.value)] else []
  }

  /** A receive and the message it gets, whichever of them came first. */
  function Pair<V>(p: Post<V>, taken: V): (V, V) {
    if p.side.Client? then (p.value, taken) else (taken, p.value)
  }

  function Min(a: nat, b: nat): nat {
    if a < b then a else b
  }

  /** Receives and messages of one key are matched first with first, second with second, and so on; what is left on the
      longer side waits, and the other side is empty. */
  ghost predicate InOrder<V>(clients: seq<V>, servers: seq<V>, matched: seq<(V, V)>, waitC: seq<V>, waitS: seq<V>) {
    var m := Min(|clients|, |servers|);
    && |matched| == m && (forall j :: 0 <= j < m ==> matched[j] == (clients[j], servers[j]))
    && waitC == clients[m..] && waitS == servers[m..]
  }

  lemma InOrderStep<V>(clients: seq<V>, servers: seq<V>, matched: seq<(V, V)>, waitC: seq<V>, waitS: seq<V>, v: V)
    requires InOrder(clients, servers, matched, waitC, waitS)
    ensures if waitS == [] then InOrder(clients + [v], servers, matched, waitC + [v], waitS)
            else InOrder(clients + [v], servers, matched + [(v, waitS[0])], waitC, waitS[1..])
    ensures if waitC == [] then InOrder(clients, servers + [v], matched, waitC, waitS + [v])
            else InOrder(clients, servers + [v], matched + [(waitC[0], v)], waitC[1..], waitS)
  {
  }

  lemma PostKeepsOrder<V>(buckets: Buckets<V>, hash: nat -> nat, zero: V, p: Post<V>, key: nat,
                          clients: seq<V>, servers: seq<V>, matched: seq<(V, V)>)
    requires Usable(p.key) && Usable(key)
    requires InOrder(clients, servers, matched, Queue(buckets, hash, key, Client, zero), Queue(buckets, hash, key, Server, zero))
    ensures var (after, out) := TableInsert(buckets, hash, p.key, p.value, p.side, zero);
      InOrder(clients + (if p.key == key && p.side == Client then [p.value] else []),
              servers + (if p.key == key && p.side == Server then [p.value] else []),
              matched + (if p.key == key && !out.inserted then [Pair(p, out.value)] else []),
              Queue(after, hash, key, Client, zero), Queue(after, hash, key, Server, zero))
  {
    TableInsertQueues(buckets, hash, p.key, p.value, p.side, zero, key, Client);
    TableInsertQueues(buckets, hash, p.key, p.value, p.side, zero, key, Server);
    InOrderStep(clients, servers, matched, Queue(buckets, hash, key, Client, zero), Queue(buckets, hash, key, Server, zero),
                p.value);
    assert clients + [] == clients && servers + [] == servers && matched + [] == matched;
  }

  /** In every run, the k-th receive posted under a key is matched with the k-th message that arrived under it. */
  lemma {:induction false} KthMatchesKth<V>(posts: seq<Post<V>>, hash: nat -> nat, zero: V, key: nat)
    requires UsableKeys(posts) && Usable(key)
    ensures InOrder(Posted(posts, key, Client), Posted(posts, key, Server), Matched(posts, hash, zero, key),
                    Queue(After(posts, hash, zero), hash, key, Client, zero),
                    Queue(After(posts, hash, zero), hash, key, Server, zero))
    decreases |posts|
  {
    if posts == [] {
      NoValues(EmptyRow(zero), Tag(key, Client));
      NoValues(EmptyRow(zero), Tag(key, Server));
    } else {
      var before, p := posts[..|posts| - 1], posts[|posts| - 1];
      KthMatchesKth(before, hash, zero, key);
      PostKeepsOrder(After(before, hash, zero), hash, zero, p, key, Posted(before, key, Client), Posted(before, key, Server),
                     Matched(before, hash, zero, key));
    }
  }

  /** So a key never has receives and messages waiting at the same time. */
  lemma NeverBothWait<V>(posts: seq<Post<V>>, hash: nat -> nat, zero: V, key: nat)
    requires UsableKeys(posts) && Usable(key)
    ensures Queue(After(posts, hash, zero), hash, key, Client, zero) == []
         || Queue(After(posts, hash, zero), hash, key, Server, zero) == []
  {
    KthMatchesKth(posts, hash, zero, key);
  }
}
