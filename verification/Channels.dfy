/** The channel table of a cell: a bit array and a doubly linked list of the busy channels. */
module Channels {
  import opened Common
  import opened Noise

  // ---------- Words of bits ----------

  /** CHECK_CHANNEL_BIT: bit k of a word, w & (1 << k). */
  predicate CheckBit(w: nat, k: nat) {
    if k == 0 then w % 2 == 1 else CheckBit(w / 2, k - 1)
  }

  /** SET_CHANNEL_BIT: w | (1 << k). */
  function SetBit(w: nat, k: nat): nat {
    if k == 0 then w / 2 * 2 + 1 else SetBit(w / 2, k - 1) * 2 + w % 2
  }

  /** RESET_CHANNEL_BIT: w & ~(1 << k). */
  function ResetBit(w: nat, k: nat): nat {
    if k == 0 then w / 2 * 2 else ResetBit(w / 2, k - 1) * 2 + w % 2
  }

  function Power(k: nat): nat {
    if k == 0 then 1 else 2 * Power(k - 1)
  }

  /** Setting a bit sets that bit and no other. */
  lemma {:induction false} SetBitSets(w: nat, k: nat, j: nat)
    ensures CheckBit(SetBit(w, k), j) <==> j == k || CheckBit(w, j)
  {
    if k > 0 && j > 0 {
      SetBitSets(w / 2, k - 1, j - 1);
    }
  }

  /** Resetting a bit resets that bit and no other. */
  lemma {:induction false} ResetBitResets(w: nat, k: nat, j: nat)
    ensures CheckBit(ResetBit(w, k), j) <==> j != k && CheckBit(w, j)
  {
    if k > 0 && j > 0 {
      ResetBitResets(w / 2, k - 1, j - 1);
    }
  }

  /** Setting a clear bit adds its weight, and resetting a set bit takes it away. */
  lemma {:induction false} BitWeight(w: nat, k: nat)
    ensures SetBit(w, k) == if CheckBit(w, k) then w else w + Power(k)
    ensures ResetBit(w, k) == if CheckBit(w, k) then w - Power(k) else w
  {
    if k > 0 {
      BitWeight(w / 2, k - 1);
    }
  }

  /** Words of n bits stay words of n bits. */
  lemma {:induction false} BitsFit(w: nat, k: nat, n: nat)
    requires k < n && w < Power(n)
    ensures SetBit(w, k) < Power(n) && ResetBit(w, k) < Power(n)
  {
    if k > 0 {
      BitsFit(w / 2, k - 1, n - 1);
    }
  }

  lemma {:induction false} PowerOf32()
    ensures Power(32) == 0x1_0000_0000
  {
    assert Power(8) == 256;
    assert Power(16) == 65536;
    assert Power(24) == 16777216;
  }

  lemma {:induction false} NoBitsInZero(k: nat)
    ensures !CheckBit(0, k)
  {
    if k > 0 {
      NoBitsInZero(k - 1);
    }
  }

  /** The bit of channel i in an array of words (CHECK_CHANNEL). */
  predicate BitAt(words: seq<Word>, i: nat)
    requires i / 32 < |words|
  {
    CheckBit(words[i / 32], i % 32)
  }

  lemma SetChannelBit(words: seq<Word>, c: nat, w: Word, i: nat)
    requires c / 32 < |words| && i / 32 < |words| && w == SetBit(words[c / 32], c % 32)
    ensures BitAt(words[c / 32 := w], i) <==> i == c || BitAt(words, i)
  {
    SetBitSets(words[c / 32], c % 32, i % 32);
  }

  lemma ResetChannelBit(words: seq<Word>, c: nat, w: Word, i: nat)
    requires c / 32 < |words| && i / 32 < |words| && w == ResetBit(words[c / 32], c % 32)
    ensures BitAt(words[c / 32 := w], i) <==> i != c && BitAt(words, i)
  {
    ResetBitResets(words[c / 32], c % 32, i % 32);
  }

  // ---------- List and bits agree ----------

  /** The list names each busy channel once, and the bits below n name the same channels. */
  ghost predicate Agree(words: seq<Word>, ids: seq<nat>, n: nat) {
    && n <= 32 * |words|
    && (forall i :: 0 <= i < n ==> (BitAt(words, i) <==> i in ids))
    && (forall k :: 0 <= k < |ids| ==> ids[k] < n)
    && (forall k, l :: 0 <= k < l < |ids| ==> ids[k] != ids[l])
  }

  lemma AgreeAdd(words: seq<Word>, ids: seq<nat>, n: nat, c: nat, w: Word)
    requires Agree(words, ids, n) && c < n && c !in ids && w == SetBit(words[c / 32], c % 32)
    ensures Agree(words[c / 32 := w], [c] + ids, n)
  {
    forall i | 0 <= i < n ensures BitAt(words[c / 32 := w], i) <==> i in [c] + ids {
      SetChannelBit(words, c, w, i);
    }
  }

  function Without<T>(s: seq<T>, k: nat): seq<T>
    requires k < |s|
  {
    s[..k] + s[k + 1..]
  }

  lemma WithoutMember(ids: seq<nat>, k: nat, i: nat)
    requires k < |ids| && forall a, b :: 0 <= a < b < |ids| ==> ids[a] != ids[b]
    ensures i in Without(ids, k) <==> i in ids && i != ids[k]
  {
    assert ids == ids[..k] + [ids[k]] + ids[k + 1..];
  }

  lemma AgreeRemove(words: seq<Word>, ids: seq<nat>, n: nat, k: nat, w: Word)
    requires Agree(words, ids, n) && k < |ids| && w == ResetBit(words[ids[k] / 32], ids[k] % 32)
    ensures Agree(words[ids[k] / 32 := w], Without(ids, k), n)
  {
    var c := ids[k];
    forall i | 0 <= i < n ensures BitAt(words[c / 32 := w], i) <==> i in Without(ids, k) {
      ResetChannelBit(words, c, w, i);
      WithoutMember(ids, k, i);
    }
  }

  // ---------- The records ----------

  const MIN_POWER := 3.0
  const MAX_POWER := 3000.0
  const SIR_AIM := 10.0
  const CROSS_PATH_GAIN := 0.00000000000005
  const PATH_GAIN := 0.0000000001

  class Channel {
    const channelId: nat
    var fading: real
    var power: real
    var next: Channel?
    var prev: Channel?

    constructor (id: nat, prev: Channel?)
      ensures channelId == id && next == null && this.prev == prev
    {
      channelId := id;
      next := null;
      this.prev := prev;
    }
  }

  ghost function Ids(s: seq<Channel>): (ids: seq<nat>)
    ensures |ids| == |s| && forall k :: 0 <= k < |s| ==> ids[k] == s[k].channelId
  {
    seq(|s|, k requires 0 <= k < |s| => s[k].channelId)
  }

  function At(s: seq<Channel>, i: int): Channel? {
    if 0 <= i < |s| then s[i] else null
  }

  lemma AtWithout(s: seq<Channel>, k: nat, i: int)
    requires k < |s|
    ensures At(Without(s, k), i) == if i < k then At(s, i) else At(s, i + 1)
  {
  }

  function Product(a: real, b: real, c: real): (r: real)
    requires a >= 0.0 && b >= 0.0 && c >= 0.0
    ensures r >= 0.0
  {
    a * b * c
  }

  /** What a channel's power comes to elsewhere in the cell, with its fading and some cross path gain. */
  ghost predicate IsShare(share: real, power: real, fading: real, pow10: real -> real) {
    exists gain :: OnPath(CROSS_PATH_GAIN, gain, pow10) && share == gain * power * fading
  }

  lemma ProductIsShare(gain: real, power: real, fading: real, pow10: real -> real)
    requires OnPath(CROSS_PATH_GAIN, gain, pow10) && gain >= 0.0 && power >= 0.0 && fading >= 0.0
    ensures IsShare(Product(gain, power, fading), power, fading, pow10)
  {
  }

  /** A power that brings the signal, with its fading and some path gain, to an aim, or as near to it
      as the limits allow. */
  ghost predicate Aims(power: real, fading: real, aim: real, pow10: real -> real) {
    exists gain :: OnPath(PATH_GAIN, gain, pow10) && Balances(power, gain * fading, aim)
  }

  predicate Balances(power: real, gain: real, aim: real) {
    && (MIN_POWER < power < MAX_POWER ==> power * gain == aim)
    && (power == MIN_POWER ==> power * gain >= aim)
    && (power == MAX_POWER ==> power * gain <= aim)
  }

  /** The power between the limits that is nearest to p. */
  function Limited(p: real): real {
    if p < MIN_POWER then MIN_POWER else if p > MAX_POWER then MAX_POWER else p
  }

  lemma QuotientBalances(aim: real, gain: real)
    requires gain > 0.0
    ensures Balances(Limited(aim / gain), gain, aim)
  {
    var p := aim / gain;
    assert p * gain == aim;
    assert p < MIN_POWER ==> (MIN_POWER - p) * gain > 0.0;
    assert p > MAX_POWER ==> (p - MAX_POWER) * gain > 0.0;
  }

  lemma QuotientAims(aim: real, gain: real, fading: real, pow10: real -> real)
    requires OnPath(PATH_GAIN, gain, pow10) && gain > 0.0 && fading > 0.0
    ensures gain * fading > 0.0 && Aims(Limited(aim / (gain * fading)), fading, aim, pow10)
  {
    QuotientBalances(aim, gain * fading);
  }

  class Table {
    const channelsPerCell: nat
    const channelState: array<Word>
    var channels: Channel?
    /** The list from its head, which is the channel allocated last, along prev. */
    ghost var spine: seq<Channel>
    /** All records the table ever made; those of the list are among them. */
    ghost var nodes: set<Channel>

    ghost predicate Housed()
      reads this`spine, this`nodes
    {
      forall c :: c in spine ==> c in nodes
    }

    ghost predicate Chained()
      reads this`channels, this`spine, spine`next, spine`prev
    {
      && (forall i, j :: 0 <= i < j < |spine| ==> spine[i] != spine[j])
      && channels == At(spine, 0)
      && forall i {:trigger spine[i].prev} {:trigger spine[i].next} :: 0 <= i < |spine| ==>
           spine[i].prev == At(spine, i + 1) && spine[i].next == At(spine, i - 1)
    }

    ghost predicate Consistent()
      reads this`spine, channelState
    {
      Agree(channelState[..], Ids(spine), channelsPerCell)
    }

    ghost predicate Powered()
      reads this`spine, spine`power
    {
      forall c :: c in spine ==> MIN_POWER <= c.power <= MAX_POWER
    }

    /** An empty table: twice the words needed are allocated, and only the needed ones cleared. */
    constructor (n: nat)
      ensures channelsPerCell == n && spine == [] && nodes == {} && Valid() && fresh(channelState)
    {
      channelsPerCell := n;
      channelState := new Word[2 * (n / 32 + 1)];
      channels := null;
      spine, nodes := [], {};
      new;
      for i := 0 to n / 32 + 1
        invariant channelsPerCell == n && spine == [] && nodes == {} && channels == null && fresh(channelState)
        invariant forall j :: 0 <= j < i ==> channelState[j] == 0
      {
        channelState[i] := 0;
      }
      forall i: nat | i < n ensures !BitAt(channelState[..], i) {
        NoBitsInZero(i % 32);
      }
    }

    /** The least free channel, -1 if there is none. */
    method FindFree() returns (index: int)
      requires Consistent()
      ensures -1 <= index < channelsPerCell
      ensures index == -1 ==> forall i :: 0 <= i < channelsPerCell ==> i in Ids(spine)
      ensures index >= 0 ==> index !in Ids(spine) && forall i :: 0 <= i < index ==> i in Ids(spine)
    {
      for i := 0 to channelsPerCell
        invariant forall j :: 0 <= j < i ==> j in Ids(spine)
      {
        assert BitAt(channelState[..], i) <==> i in Ids(spine);
        if !CheckBit(channelState[i / 32], i % 32) {
          return i;
        }
      }
      index := -1;
    }

    method SetChannel(c: nat)
      requires c / 32 < channelState.Length
      modifies channelState
      ensures channelState[..] == old(channelState[..])[c / 32 := SetBit(old(channelState[..])[c / 32], c % 32)]
    {
      PowerOf32();
      BitsFit(channelState[c / 32], c % 32, 32);
      channelState[c / 32] := SetBit(channelState[c / 32], c % 32);
    }

    method ResetChannel(c: nat)
      requires c / 32 < channelState.Length
      modifies channelState
      ensures channelState[..] == old(channelState[..])[c / 32 := ResetBit(old(channelState[..])[c / 32], c % 32)]
    {
      PowerOf32();
      BitsFit(channelState[c / 32], c % 32, 32);
      channelState[c / 32] := ResetBit(channelState[c / 32], c % 32);
    }

    /** A new head for the list. */
    method Push(index: nat) returns (c: Channel)
      requires Chained()
      modifies this`channels, this`spine, this`nodes, spine`next
      ensures Chained() && spine == [c] + old(spine) && fresh(c) && c.channelId == index && nodes == old(nodes) + {c}
    {
      ghost var was := spine;
      c := new Channel(index, channels);
      if channels != null {
        channels.next := c;
      }
      channels := c;
      spine, nodes := [c] + spine, nodes + {c};
      forall i | 0 <= i < |spine|
        ensures spine[i].prev == At(spine, i + 1) && spine[i].next == At(spine, i - 1)
      {
        assert i > 0 ==> spine[i] == was[i - 1] && old(was[i - 1].prev) == At(was, i);
      }
    }

    /** Taking the head out of the list. */
    method UnlinkHead()
      requires Chained() && spine != []
      modifies this`channels, this`spine, spine`next
      ensures Chained() && spine == Without(old(spine), 0)
    {
      ghost var was := spine;
      assert was[0].prev == At(was, 1);
      channels := channels.prev;
      if channels != null {
        channels.next := null;
      }
      spine := Without(spine, 0);
      forall i | 0 <= i < |spine|
        ensures spine[i].prev == At(spine, i + 1) && spine[i].next == At(spine, i - 1)
      {
        assert spine[i] == was[i + 1];
        assert old(was[i + 1].prev) == At(was, i + 2) && old(was[i + 1].next) == At(was, i);
      }
    }

    /** Joining the neighbours of a later channel. */
    method Join(c: Channel, ghost k: nat)
      requires Chained() && 0 < k < |spine| && spine[k] == c
      modifies spine`next, spine`prev
      ensures forall i {:trigger spine[i].prev} :: 0 <= i < |spine| ==>
                spine[i].prev == if i == k - 1 then At(spine, k + 1) else At(spine, i + 1)
      ensures forall i {:trigger spine[i].next} :: 0 <= i < |spine| ==>
                spine[i].next == if i == k + 1 then At(spine, k - 1) else At(spine, i - 1)
    {
      assert spine[k].prev == At(spine, k + 1) && spine[k].next == At(spine, k - 1);
      if c.next != null {
        c.next.prev := c.prev;
      }
      if c.prev != null {
        c.prev.next := c.next;
      }
    }

    /** Taking a later channel out of the list: its neighbours are joined. */
    method UnlinkInner(c: Channel, ghost k: nat)
      requires Chained() && 0 < k < |spine| && spine[k] == c
      modifies this`spine, spine`next, spine`prev
      ensures Chained() && spine == Without(old(spine), k)
    {
      ghost var was := spine;
      Join(c, k);
      spine := Without(spine, k);
      forall i | 0 <= i < |spine| ensures spine[i].prev == At(spine, i + 1) {
        AtWithout(was, k, i);
        AtWithout(was, k, i + 1);
      }
      forall i | 0 <= i < |spine| ensures spine[i].next == At(spine, i - 1) {
        AtWithout(was, k, i);
        AtWithout(was, k, i - 1);
      }
    }

    /** Taking the k-th channel out of the list. */
    method Unlink(c: Channel, ghost k: nat)
      requires Chained() && k < |spine| && spine[k] == c
      modifies this`channels, this`spine, spine`next, spine`prev
      ensures Chained() && spine == Without(old(spine), k)
    {
      if c == channels {
        UnlinkHead();
      } else {
        UnlinkInner(c, k);
      }
    }

    /** Walking the list for a channel. */
    method FindChannel(ch: int) returns (c: Channel?, ghost k: nat)
      requires Chained()
      ensures c == null ==> ch !in Ids(spine)
      ensures c != null ==> k < |spine| && spine[k] == c && c.channelId == ch
    {
      c := channels;
      k := 0;
      while c != null
        invariant k <= |spine| && c == At(spine, k)
        invariant forall j :: 0 <= j < k ==> spine[j].channelId != ch
        decreases |spine| - k
      {
        if c.channelId == ch {
          return;
        }
        c := c.prev;
        k := k + 1;
      }
    }

    /** New fading for every busy channel: an exponential number of mean 1. */
    method FadingRecheck(noise: Source)
      requires Chained() && noise.Valid()
      modifies spine`fading, noise.generator
      ensures Chained() && forall k :: 0 <= k < |spine| ==> Drawn(1.0, spine[k].fading, noise.ln)
    {
      var ch := channels;
      ghost var k := 0;
      while ch != null
        invariant k <= |spine| && ch == At(spine, k) && Chained()
        invariant forall j :: 0 <= j < k ==> Drawn(1.0, spine[j].fading, noise.ln)
        decreases |spine| - k
      {
        ch.fading := noise.Expent(1.0);
        ch := ch.prev;
        k := k + 1;
      }
    }

    /** What one channel adds to the interference, with a new fading. */
    method Listen(ch: Channel, noise: Source) returns (share: real)
      requires noise.Valid() && ch.power >= MIN_POWER
      modifies ch`fading, noise.generator
      ensures share >= 0.0 && Drawn(1.0, ch.fading, noise.ln) && IsShare(share, ch.power, ch.fading, noise.pow10)
    {
      ch.fading := noise.Expent(1.0);
      var gain := noise.Gain(CROSS_PATH_GAIN);
      ProductIsShare(gain, ch.power, ch.fading, noise.pow10);
      share := Product(gain, ch.power, ch.fading);
    }

    /** The interference of the channels behind the head, each with a new fading: the sum of what
        each of them adds; the head adds nothing. */
    method Interference(noise: Source) returns (summ: real, ghost shares: seq<real>)
      requires Chained() && spine != [] && noise.Valid()
      requires forall k :: 1 <= k < |spine| ==> spine[k].power >= MIN_POWER
      modifies spine`fading, noise.generator
      ensures Chained() && summ >= 0.0 && summ == Sum(shares) && |shares| == |spine| && shares[0] == 0.0
      ensures forall k :: 1 <= k < |spine| ==>
                Drawn(1.0, spine[k].fading, noise.ln) && IsShare(shares[k], spine[k].power, spine[k].fading, noise.pow10)
    {
      summ, shares := 0.0, [0.0];
      assert spine[0].prev == At(spine, 1);
      var ch := channels.prev;
      ghost var k := 1;
      while ch != null
        invariant 1 <= k <= |spine| && ch == At(spine, k) && Chained() && summ >= 0.0
        invariant summ == Sum(shares) && |shares| == k && shares[0] == 0.0
        invariant forall j :: 1 <= j < k ==>
                    Drawn(1.0, spine[j].fading, noise.ln) && IsShare(shares[j], spine[j].power, spine[j].fading, noise.pow10)
        decreases |spine| - k
      {
        var share := Listen(ch, noise);
        SumAppend(shares, share);
        summ, shares := summ + share, shares + [share];
        ch := ch.prev;
        k := k + 1;
      }
    }

    /** The power of the new head: the least power if nothing interferes; else what brings its signal
        to SIR_AIM times the interference, as far as the limits allow. */
    method ChoosePower(c: Channel, noise: Source) returns (ghost shares: seq<real>)
      requires Chained() && spine != [] && spine[0] == c && noise.Valid()
      requires forall k :: 1 <= k < |spine| ==> spine[k].power >= MIN_POWER
      modifies spine`fading, c`power, noise.generator
      ensures Chained() && MIN_POWER <= c.power <= MAX_POWER && |shares| == |spine| && shares[0] == 0.0
      ensures forall k :: 1 <= k < |spine| ==> IsShare(shares[k], spine[k].power, spine[k].fading, noise.pow10)
      ensures if Sum(shares) == 0.0 then c.power == MIN_POWER
              else Drawn(1.0, c.fading, noise.ln) && Aims(c.power, c.fading, SIR_AIM * Sum(shares), noise.pow10)
    {
      var summ;
      summ, shares := Interference(noise);
      if summ == 0.0 {
        c.power := MIN_POWER;
      } else {
        Fit(c, SIR_AIM * summ, noise);
      }
    }

    /** The power that an aim asks for. */
    method Wanted(aim: real, gain: real, fading: real, ghost pow10: real -> real) returns (p: real)
      requires gain > 0.0 && fading > 0.0 && OnPath(PATH_GAIN, gain, pow10)
      ensures Aims(Limited(p), fading, aim, pow10)
    {
      QuotientAims(aim, gain, fading, pow10);
      p := aim / (gain * fading);
    }

    /** A new fading, and the power that fits an aim. */
    method Fit(c: Channel, aim: real, noise: Source)
      requires noise.Valid()
      modifies c`fading, c`power, noise.generator
      ensures MIN_POWER <= c.power <= MAX_POWER && Drawn(1.0, c.fading, noise.ln)
      ensures Aims(c.power, c.fading, aim, noise.pow10)
    {
      c.fading := noise.Expent(1.0);
      var gain := noise.Gain(PATH_GAIN);
      c.power := Wanted(aim, gain, c.fading, noise.pow10);
      if c.power < MIN_POWER {
        c.power := MIN_POWER;
      }
      if c.power > MAX_POWER {
        c.power := MAX_POWER;
      }
    }

    ghost predicate Valid()
      reads this`channels, this`spine, this`nodes, channelState, spine`next, spine`prev, spine`power
    {
      Housed() && Chained() && Consistent() && Powered()
    }

    /** Entering a free channel in both the bit array and the list. */
    method Occupy(index: nat) returns (c: Channel)
      requires Chained() && Consistent() && index < channelsPerCell && index !in Ids(spine)
      modifies this`channels, this`spine, this`nodes, channelState, spine`next
      ensures Chained() && Consistent()
      ensures nodes == old(nodes) + {c}
      ensures spine == [c] + old(spine) && fresh(c) && Ids(spine) == [index] + old(Ids(spine))
    {
      ghost var words, ids := channelState[..], Ids(spine);
      SetChannel(index);
      AgreeAdd(words, ids, channelsPerCell, index, channelState[index / 32]);
      c := Push(index);
      assert Ids(spine) == [index] + ids;
    }

    /** Giving a free channel to a call. */
    method Assign(index: nat, noise: Source)
      requires Valid() && noise.Valid() && index < channelsPerCell && index !in Ids(spine)
      modifies this`channels, this`spine, this`nodes, channelState, nodes, noise.generator
      ensures Valid() && fresh(nodes - old(nodes)) && spine != [] && spine[1..] == old(spine)
      ensures Ids(spine) == [index] + old(Ids(spine))
      ensures forall k :: 0 <= k < |spine| ==> Drawn(1.0, spine[k].fading, noise.ln)
    {
      var c := Occupy(index);
      Tune(c, noise);
      FadingRecheck(noise);
    }

    /** The power of a channel just entered. */
    method Tune(c: Channel, noise: Source)
      requires Housed() && Chained() && Consistent() && spine != [] && spine[0] == c && noise.Valid()
      requires forall k :: 1 <= k < |spine| ==> MIN_POWER <= spine[k].power <= MAX_POWER
      modifies spine`fading, c`power, noise.generator
      ensures Valid()
    {
      var _ := ChoosePower(c, noise);
    }

    /** Finding a free channel for a call. -1 means that there is none, where the program aborts. */
    method Allocation(noise: Source) returns (index: int)
      requires Valid() && noise.Valid()
      modifies this`channels, this`spine, this`nodes, channelState, nodes, noise.generator
      ensures Valid() && fresh(nodes - old(nodes))
      ensures -1 <= index < channelsPerCell
      ensures index == -1 <==> forall i :: 0 <= i < channelsPerCell ==> i in old(Ids(spine))
      ensures index == -1 ==> spine == old(spine) && channelState[..] == old(channelState[..])
      ensures index >= 0 ==> index < channelsPerCell && index !in old(Ids(spine))
                             && (forall i :: 0 <= i < index ==> i in old(Ids(spine)))
                             && Ids(spine) == [index] + old(Ids(spine)) && spine[1..] == old(spine)
      ensures index >= 0 ==> forall k :: 0 <= k < |spine| ==> Drawn(1.0, spine[k].fading, noise.ln)
    {
      index := FindFree();
      if index >= 0 {
        Assign(index, noise);
        assert spine == [spine[0]] + spine[1..];
      }
    }

    /** Taking a busy channel out of both the bit array and the list. */
    method Vacate(c: Channel, ch: nat, ghost k: nat)
      requires Valid() && k < |spine| && spine[k] == c && c.channelId == ch
      modifies this`channels, this`spine, channelState, spine`next, spine`prev
      ensures Valid()
      ensures spine == Without(old(spine), k) && Ids(spine) == Without(old(Ids(spine)), k)
    {
      ghost var words, ids := channelState[..], Ids(spine);
      Unlink(c, k);
      ResetChannel(ch);
      AgreeRemove(words, ids, channelsPerCell, k, channelState[ch / 32]);
      assert Ids(spine) == Without(ids, k);
    }

    /** The same, with a new fading for the channels that stay. */
    method Release(c: Channel, ch: nat, ghost k: nat, noise: Source)
      requires Valid() && noise.Valid() && k < |spine| && spine[k] == c && c.channelId == ch
      modifies this`channels, this`spine, channelState, nodes, noise.generator
      ensures Valid() && spine == Without(old(spine), k) && Ids(spine) == Without(old(Ids(spine)), k)
      ensures forall k :: 0 <= k < |spine| ==> Drawn(1.0, spine[k].fading, noise.ln)
    {
      Vacate(c, ch, k);
      FadingRecheck(noise);
    }

    /** Freeing the channel of a call that is over. False where the program aborts: the channel was not busy. */
    method Deallocation(ch: int, noise: Source) returns (found: bool, ghost k: nat)
      requires Valid() && noise.Valid()
      modifies this`channels, this`spine, channelState, nodes, noise.generator
      ensures Valid()
      ensures found <==> ch in old(Ids(spine))
      ensures !found ==> spine == old(spine) && channelState[..] == old(channelState[..])
      ensures found ==> k < |old(spine)| && old(spine)[k].channelId == ch && spine == Without(old(spine), k)
                        && Ids(spine) == Without(old(Ids(spine)), k)
      ensures found ==> forall k :: 0 <= k < |spine| ==> Drawn(1.0, spine[k].fading, noise.ln)
    {
      var c;
      c, k := FindChannel(ch);
      found := c != null;
      if found {
        Release(c, ch, k, noise);
      }
    }
  }
}
