/**
 * The animated UR display: data to show is split by a fountain encoder into `seq_len`
 * fragments, which a timer shows one after another as QR codes under a "k/n" label, or,
 * with fountain coding on, an endless stream of encoder parts. The UR, CBOR and QR
 * libraries are inputs: an encoder is the sequence of parts its `next_part` yields.
 */
module URWidgetState {
  import opened JsonRpc

  /** A fountain encoder: its fragment count and the `k`-th part its `next_part` returns. */
  datatype Encoder = Encoder(seqLen: int, part: nat -> string)

  // ---------------------------------------------------------------------------
  // The display cursor

  /** The index shown on the tick after the one that showed `k`. */
  function Advance(k: nat, n: nat): (r: nat)
    requires n > 0
    ensures r < n
    ensures k + 1 < n ==> r == k + 1
    ensures k + 1 == n ==> r == 0
  {
    (k + 1) % n
  }

  /** The index shown `t` ticks after the one that showed `k`. */
  function Orbit(k: nat, n: nat, t: nat): nat
    requires n > 0
    decreases t
  {
    if t == 0 then k else Advance(Orbit(k, n, t - 1), n)
  }

  /** Ticks compose. */
  lemma {:induction false} OrbitAdd(k: nat, n: nat, a: nat, b: nat)
    requires n > 0
    ensures Orbit(k, n, a + b) == Orbit(Orbit(k, n, a), n, b)
    decreases b
  {
    if b > 0 {
      OrbitAdd(k, n, a, b - 1);
    }
  }

  /** Before wrapping, each tick shows the next fragment. */
  lemma {:induction false} OrbitInOrder(k: nat, n: nat, t: nat)
    requires k + t < n
    ensures Orbit(k, n, t) == k + t
    decreases t
  {
    if t > 0 {
      OrbitInOrder(k, n, t - 1);
    }
  }

  /** After `n` ticks the display is back on the same fragment. */
  lemma FullCycle(k: nat, n: nat)
    requires k < n
    ensures Orbit(k, n, n) == k
  {
    OrbitAdd(k, n, n - k, k);
    OrbitInOrder(k, n, n - k - 1);
    assert Orbit(k, n, n - k) == 0;
    OrbitInOrder(0, n, k);
  }

  /** Every fragment is shown within `n` ticks, wherever the display starts. */
  lemma EveryPartShown(k: nat, n: nat, j: nat)
    requires k < n && j < n
    ensures exists t: nat :: t < n && Orbit(k, n, t) == j
  {
    if k <= j {
      OrbitInOrder(k, n, j - k);
      assert Orbit(k, n, j - k) == j;
    } else {
      OrbitAdd(k, n, n - k, j);
      OrbitInOrder(k, n, n - k - 1);
      assert Orbit(k, n, n - k) == 0;
      OrbitInOrder(0, n, j);
      assert Orbit(k, n, n - k + j) == j;
    }
  }

  // ---------------------------------------------------------------------------
  // The sequence label

  /**
   * The "k/n" label for the fragment at `index` (already reduced below `n`): its one-based
   * position among `n` fragments. The source reduces the index once more here, which changes
   * nothing.
   */
  function Label(index: nat, n: nat): string
    requires index < n
  {
    NatToString(index + 1) + "/" + NatToString(n)
  }

  /** Reads "k/n" back, splitting at the first slash. */
  function ParseLabel(s: string): Option<(nat, nat)>
  {
    var i := IndexOf(s, '/');
    if i < |s| && AllDigits(s[..i]) && AllDigits(s[i + 1..]) then Some((ParseNat(s[..i]), ParseNat(s[i + 1..])))
    else None
  }

  /** The label names the shown fragment's one-based position, between 1 and n, and the count. */
  lemma LabelRoundTrip(index: nat, n: nat)
    requires index < n
    ensures ParseLabel(Label(index, n)) == Some((index + 1, n))
  {
    var a := NatToString(index + 1);
    var b := NatToString(n);
    var s := Label(index, n);
    assert s[|a|] == '/';
    forall i | 0 <= i < |s| && s[i] == '/' ensures i == |a| {
    }
    assert s[..|a|] == a;
    assert s[|a| + 1..] == b;
    ParseNatToString(index + 1);
    ParseNatToString(n);
  }

  // ---------------------------------------------------------------------------
  // The widget

  class URWidget {
    var urType: string
    var data: string
    var encoder: Option<Encoder>
    /** How many parts have been taken from the current encoder. */
    var taken: nat
    var allParts: seq<string>
    var currentIndex: nat
    var fragmentLength: int
    var speed: int
    var fountainCodeEnabled: bool
    var timerActive: bool
    var timerInterval: int
    /** The text of the QR code on screen and the label under it. */
    var shown: string
    var seqLabel: string

    /** While the timer runs there is an encoder with at least one fragment, and the list holds that many parts. */
    predicate Valid()
      reads this
    {
      timerActive ==> encoder.Some? && encoder.value.seqLen > 0 && |allParts| == encoder.value.seqLen
    }

    constructor (fragmentLength: int, speed: int, fountainCodeEnabled: bool)
      ensures this.fragmentLength == fragmentLength && this.speed == speed
      ensures this.fountainCodeEnabled == fountainCodeEnabled
      ensures encoder == None && allParts == [] && currentIndex == 0 && !timerActive && Valid()
    {
      this.fragmentLength := fragmentLength;
      this.speed := speed;
      this.fountainCodeEnabled := fountainCodeEnabled;
      urType := "";
      data := "";
      encoder := None;
      taken := 0;
      allParts := [];
      currentIndex := 0;
      timerActive := false;
      timerInterval := 0;
      shown := "";
      seqLabel := "";
    }

    /**
     * Stores the type and data, stops the timer and drops the parts. Empty data ends there;
     * otherwise `encoder` (made for the data with the current fragment length) replaces the old
     * one, its first `seq_len` parts become the list, and the timer restarts at the current
     * speed. The cursor is kept.
     */
    method SetData(urType: string, data: string, encoder: Encoder)
      requires data != [] ==> encoder.seqLen > 0
      modifies this
      ensures this.urType == urType && this.data == data && Valid()
      ensures data == [] ==> allParts == [] && !timerActive && this.encoder == old(this.encoder) && taken == old(taken)
      ensures data != [] ==> this.encoder == Some(encoder) && taken == encoder.seqLen
                             && |allParts| == encoder.seqLen
                             && (forall j :: 0 <= j < |allParts| ==> allParts[j] == encoder.part(j))
                             && timerActive && timerInterval == speed
      ensures data == [] ==> timerInterval == old(timerInterval)
      ensures currentIndex == old(currentIndex) && shown == old(shown) && seqLabel == old(seqLabel)
      ensures fragmentLength == old(fragmentLength) && speed == old(speed)
      ensures fountainCodeEnabled == old(fountainCodeEnabled)
    {
      this.urType := urType;
      this.data := data;
      timerActive := false;
      allParts := [];
      if data == [] {
        return;
      }
      this.encoder := Some(encoder);
      taken := 0;
      for i := 0 to encoder.seqLen
        invariant taken == i && |allParts| == i
        invariant forall j :: 0 <= j < i ==> allParts[j] == encoder.part(j)
        invariant this.urType == urType && this.data == data && this.encoder == Some(encoder) && !timerActive
        invariant currentIndex == old(currentIndex) && shown == old(shown) && seqLabel == old(seqLabel)
        invariant fragmentLength == old(fragmentLength) && speed == old(speed)
        invariant fountainCodeEnabled == old(fountainCodeEnabled)
      {
        allParts := allParts + [encoder.part(taken)];
        taken := taken + 1;
      }
      timerInterval := speed;
      timerActive := true;
    }

    /**
     * One timer tick: the cursor is reduced below `seq_len`, the fragment under it (or, with
     * fountain coding, the encoder's next part) is shown with its "k/n" label, and the cursor
     * moves on by one.
     */
    method NextQR()
      requires Valid() && timerActive
      modifies this
      ensures encoder == old(encoder) && allParts == old(allParts) && timerActive && Valid()
      ensures var n := old(encoder.value.seqLen);
              var k := old(currentIndex) % n;
              seqLabel == Label(k, n)
              && currentIndex == k + 1
              && (fountainCodeEnabled ==> shown == old(encoder.value.part(taken)) && taken == old(taken) + 1)
              && (!fountainCodeEnabled ==> shown == old(allParts[k]) && taken == old(taken))
      ensures urType == old(urType) && data == old(data) && timerInterval == old(timerInterval)
      ensures fragmentLength == old(fragmentLength) && speed == old(speed)
      ensures fountainCodeEnabled == old(fountainCodeEnabled)
    {
      var n := encoder.value.seqLen;
      currentIndex := currentIndex % n;
      if fountainCodeEnabled {
        shown := encoder.value.part(taken);
        taken := taken + 1;
      } else {
        shown := allParts[currentIndex];
      }
      seqLabel := Label(currentIndex, n);
      currentIndex := currentIndex + 1;
    }

    /**
     * The options button: the settings dialog is shown (its changes reach no slot of this
     * widget), then the same type and data are set again, with a fresh encoder.
     */
    method SetOptions(encoder: Encoder)
      requires data != [] ==> encoder.seqLen > 0
      modifies this
      ensures urType == old(urType) && data == old(data) && Valid()
      ensures fragmentLength == old(fragmentLength) && speed == old(speed)
      ensures fountainCodeEnabled == old(fountainCodeEnabled)
      ensures data != [] ==> this.encoder == Some(encoder) && taken == encoder.seqLen
                             && |allParts| == encoder.seqLen
                             && (forall j :: 0 <= j < |allParts| ==> allParts[j] == encoder.part(j))
                             && timerActive && timerInterval == speed
      ensures data == [] ==> allParts == [] && !timerActive && this.encoder == old(this.encoder)
                             && taken == old(taken) && timerInterval == old(timerInterval)
      ensures currentIndex == old(currentIndex) && shown == old(shown) && seqLabel == old(seqLabel)
    {
      SetData(urType, data, encoder);
    }

    /** Stores the three settings as given; they take effect at the next `SetData`. */
    method OnSettingsChanged(fragmentLength: int, speed: int, fountainCodeEnabled: bool)
      modifies this
      ensures this.fragmentLength == fragmentLength && this.speed == speed
      ensures this.fountainCodeEnabled == fountainCodeEnabled
      ensures urType == old(urType) && data == old(data) && encoder == old(encoder) && taken == old(taken)
      ensures allParts == old(allParts) && currentIndex == old(currentIndex)
      ensures timerActive == old(timerActive) && timerInterval == old(timerInterval)
      ensures shown == old(shown) && seqLabel == old(seqLabel)
    {
      this.fragmentLength := fragmentLength;
      this.speed := speed;
      this.fountainCodeEnabled := fountainCodeEnabled;
    }
  }
}
