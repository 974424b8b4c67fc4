/** The 64-number replay window of a UDP association, in the Core's Go and in the
    Mac endpoint's Swift: two bit tricks that stand for the same set of numbers. */
module ReplayWindow {
  import opened Words

  datatype Window = Window(highest: Word, bitmap: Word)

  const START: Window := Window(0, 0)

  // ----- What a window stands for --------------------------------------------

  /** A number is accepted once, and only if nothing accepted is 64 or more above it. */
  predicate Acceptable(accepted: set<Word>, s: Word) {
    s > 0 && s !in accepted && forall a :: a in accepted ==> a - s < 64
  }

  predicate Represents(w: Window, accepted: set<Word>) {
    && (forall a :: a in accepted ==> 0 < a <= w.highest)
    && (w.highest > 0 ==> w.highest in accepted)
    && (forall i: nat :: i < 64 ==> (Bit(w.bitmap, i) <==> w.highest >= i && w.highest - i in accepted))
  }

  function Accepted(history: seq<Word>): set<Word> {
    if history == [] then {}
    else
      var before := Accepted(history[..|history| - 1]);
      var s := history[|history| - 1];
      if Acceptable(before, s) then before + {s} else before
  }

  // ----- The two implementations ---------------------------------------------

  function Slid(bitmap: Word, shift: nat): Word {
    OrIsWord(ShiftLeft(bitmap, shift), 1);
    if shift >= 64 then 1 else Or(ShiftLeft(bitmap, shift), 1)
  }

  function GoAccept(w: Window, s: Word): (Window, bool) {
    if s == 0 then (w, false)
    else if w.highest == 0 then (Window(s, 1), true)
    else if s > w.highest then (Window(s, Slid(w.bitmap, s - w.highest)), true)
    else AcceptOlder(w, w.highest - s)
  }

  function SwiftAccept(w: Window, s: Word): (Window, bool) {
    if !(s > 0) then (w, false)
    else if s > w.highest then (Window(s, Slid(w.bitmap, s - w.highest)), true)
    else AcceptOlder(w, w.highest - s)
  }

  function AcceptOlder(w: Window, offset: nat): (Window, bool) {
    if offset >= 64 then (w, false)
    else
      var mask := ShiftLeft(1, offset);
      OrIsWord(w.bitmap, mask);
      if And(w.bitmap, mask) != 0 then (w, false) else (Window(w.highest, Or(w.bitmap, mask)), true)
  }

  // ----- One step ------------------------------------------------------------

  lemma SlidBit(bitmap: Word, shift: nat, i: nat)
    requires shift > 0 && i < 64
    ensures Bit(Slid(bitmap, shift), i) <==> i == 0 || (shift <= i && Bit(bitmap, i - shift))
  {
    OnlyBitOfOne(i);
    if shift < 64 {
      OrBit(ShiftLeft(bitmap, shift), 1, i);
      ShiftedBit(bitmap, shift, i);
    }
  }

  lemma HighestDecides(w: Window, accepted: set<Word>, s: Word)
    requires Represents(w, accepted)
    ensures Acceptable(accepted, s) <==> s > 0 && s !in accepted && w.highest - s < 64
  {
  }

  lemma NewerKeeps(w: Window, accepted: set<Word>, s: Word)
    requires Represents(w, accepted) && s > w.highest
    ensures Represents(Window(s, Slid(w.bitmap, s - w.highest)), accepted + {s})
  {
    var shift := s - w.highest;
    forall i: nat | i < 64
      ensures Bit(Slid(w.bitmap, shift), i) <==> s >= i && s - i in accepted + {s}
    {
      SlidBit(w.bitmap, shift, i);
      if shift <= i {
        assert w.highest - (i - shift) == s - i;
      }
    }
  }

  lemma OlderKeeps(w: Window, accepted: set<Word>, s: Word)
    requires Represents(w, accepted) && 0 < s <= w.highest
    ensures AcceptOlder(w, w.highest - s).1 <==> Acceptable(accepted, s)
    ensures Represents(AcceptOlder(w, w.highest - s).0, if Acceptable(accepted, s) then accepted + {s} else accepted)
  {
    HighestDecides(w, accepted, s);
    var offset := w.highest - s;
    if offset < 64 {
      MaskReadsBit(w.bitmap, offset);
      forall i: nat | i < 64
        ensures Bit(Or(w.bitmap, ShiftLeft(1, offset)), i) <==> w.highest >= i && w.highest - i in accepted + {s}
      {
        OrBit(w.bitmap, ShiftLeft(1, offset), i);
        OneAtBit(offset, i);
      }
    }
  }

  /** Both implementations decide as the set of accepted numbers says, and go on standing for it. */
  lemma StepsAgree(w: Window, accepted: set<Word>, s: Word)
    requires Represents(w, accepted)
    ensures GoAccept(w, s) == SwiftAccept(w, s)
    ensures GoAccept(w, s).1 <==> Acceptable(accepted, s)
    ensures Represents(GoAccept(w, s).0, if Acceptable(accepted, s) then accepted + {s} else accepted)
  {
    HighestDecides(w, accepted, s);
    if s > w.highest {
      NewerKeeps(w, accepted, s);
      if w.highest == 0 {
        EmptyBitmapIsZero(w, accepted);
        SlidEmpty(s);
      }
    } else if s > 0 {
      OlderKeeps(w, accepted, s);
    }
  }

  lemma EmptyBitmapIsZero(w: Window, accepted: set<Word>)
    requires Represents(w, accepted) && w.highest == 0
    ensures w.bitmap == 0
  {
    LimitIsPow2();
    forall i | 0 <= i < 64 ensures !Bit(w.bitmap, i) {
      assert w.highest >= i ==> w.highest - i !in accepted;
    }
    NoBitsIsZero(w.bitmap, 64);
  }

  lemma {:induction false} SlidEmpty(shift: nat)
    ensures Slid(0, shift) == 1
  {
    ShiftedZero(shift);
  }

  lemma {:induction false} ShiftedZero(shift: nat)
    ensures ShiftLeft(0, shift) == 0
    decreases shift
  {
    if shift > 0 {
      ShiftedZero(shift - 1);
    }
  }

  // ----- Whole histories -----------------------------------------------------

  function GoRun(history: seq<Word>): Window {
    if history == [] then START else GoAccept(GoRun(history[..|history| - 1]), history[|history| - 1]).0
  }

  function SwiftRun(history: seq<Word>): Window {
    if history == [] then START else SwiftAccept(SwiftRun(history[..|history| - 1]), history[|history| - 1]).0
  }

  lemma {:induction false} RunsRepresent(history: seq<Word>)
    ensures GoRun(history) == SwiftRun(history)
    ensures Represents(GoRun(history), Accepted(history))
    decreases |history|
  {
    if history == [] {
      forall i: nat | i < 64 ensures !Bit(START.bitmap, i) {
        NoBitOfZero(i);
      }
    } else {
      RunsRepresent(history[..|history| - 1]);
      StepsAgree(GoRun(history[..|history| - 1]), Accepted(history[..|history| - 1]), history[|history| - 1]);
    }
  }

  /** After any history, Go and Swift accept the same next number, and exactly when
      it is positive, was never accepted, and is above the highest accepted number
      or less than 64 below it. */
  lemma BothDecideAlike(history: seq<Word>, s: Word)
    ensures GoAccept(GoRun(history), s).1 == SwiftAccept(SwiftRun(history), s).1
    ensures
      var highest := GoRun(history).highest;
      GoAccept(GoRun(history), s).1 <==>
        s > 0 && s !in Accepted(history) && (s > highest || highest - s < 64)
    ensures
      forall i: nat :: i < 64 ==>
        (Bit(GoRun(history).bitmap, i) <==>
           GoRun(history).highest >= i && GoRun(history).highest - i in Accepted(history))
  {
    RunsRepresent(history);
    StepsAgree(GoRun(history), Accepted(history), s);
    HighestDecides(GoRun(history), Accepted(history), s);
  }

  /** No number is accepted twice in one association. */
  lemma {:induction false} NeverTwice(history: seq<Word>, s: Word, later: seq<Word>)
    requires GoAccept(GoRun(history), s).1
    ensures !GoAccept(GoRun(history + [s] + later), s).1
    decreases |later|
  {
    BothDecideAlike(history, s);
    AcceptedStays(history + [s], later);
    assert (history + [s])[..|history|] == history;
    RunsRepresent(history);
    StepsAgree(GoRun(history), Accepted(history), s);
    assert s in Accepted(history + [s]);
    BothDecideAlike(history + [s] + later, s);
  }

  lemma {:induction false} AcceptedStays(history: seq<Word>, later: seq<Word>)
    ensures Accepted(history) <= Accepted(history + later)
    decreases |later|
  {
    if later == [] {
      assert history + later == history;
    } else {
      var n := |later| - 1;
      AcceptedStays(history, later[..n]);
      assert (history + later)[..|history + later| - 1] == history + later[..n];
    }
  }

  // ----- As the endpoints keep it --------------------------------------------

  /** The Core's window of one association. */
  class StrictUdpReplayWindow {
    var highest: Word
    var bitmap: Word
    ghost var accepted: set<Word>

    ghost predicate Valid()
      reads this
    {
      Represents(Window(highest, bitmap), accepted)
    }

    constructor ()
      ensures Valid() && accepted == {}
    {
      highest, bitmap, accepted := 0, 0, {};
      new;
      RunsRepresent([]);
    }

    method Accept(sequence: Word) returns (fits: bool)
      requires Valid()
      modifies this
      ensures Valid()
      ensures fits <==> Acceptable(old(accepted), sequence)
      ensures accepted == (if fits then old(accepted) + {sequence} else old(accepted))
    {
      StepsAgree(Window(highest, bitmap), accepted, sequence);
      if sequence == 0 {
        return false;
      }
      if highest == 0 {
        highest, bitmap, accepted := sequence, 1, accepted + {sequence};
        return true;
      }
      if sequence > highest {
        var shift := sequence - highest;
        if shift >= 64 {
          bitmap := 1;
        } else {
          OrIsWord(ShiftLeft(bitmap, shift), 1);
          bitmap := Or(ShiftLeft(bitmap, shift), 1);
        }
        highest, accepted := sequence, accepted + {sequence};
        return true;
      }
      var offset := highest - sequence;
      if offset >= 64 {
        return false;
      }
      var mask := ShiftLeft(1, offset);
      if And(bitmap, mask) != 0 {
        return false;
      }
      OrIsWord(bitmap, mask);
      bitmap, accepted := Or(bitmap, mask), accepted + {sequence};
      fits := true;
    }
  }

  /** The Mac endpoint's sequence numbers: its window for what arrives and its
      counter for what it sends. */
  class SwiftSequences {
    var inboundHighest: Word
    var inboundWindow: Word
    var outboundSequence: Word
    ghost var accepted: set<Word>

    ghost predicate Valid()
      reads this
    {
      Represents(Window(inboundHighest, inboundWindow), accepted)
    }

    constructor ()
      ensures Valid() && accepted == {} && outboundSequence == 0
    {
      inboundHighest, inboundWindow, outboundSequence, accepted := 0, 0, 0, {};
      new;
      RunsRepresent([]);
    }

    method AcceptUdpSequence(sequence: Word) returns (fits: bool)
      requires Valid()
      modifies `inboundHighest, `inboundWindow, `accepted
      ensures Valid()
      ensures fits <==> Acceptable(old(accepted), sequence)
      ensures accepted == (if fits then old(accepted) + {sequence} else old(accepted))
    {
      StepsAgree(Window(inboundHighest, inboundWindow), accepted, sequence);
      if !(sequence > 0) {
        return false;
      }
      if sequence > inboundHighest {
        var shift := sequence - inboundHighest;
        OrIsWord(ShiftLeft(inboundWindow, shift), 1);
        inboundWindow := if shift >= 64 then 1 else Or(ShiftLeft(inboundWindow, shift), 1);
        inboundHighest, accepted := sequence, accepted + {sequence};
        return true;
      }
      var offset := inboundHighest - sequence;
      if !(offset < 64) {
        return false;
      }
      var bit := ShiftLeft(1, offset);
      if And(inboundWindow, bit) != 0 {
        return false;
      }
      OrIsWord(inboundWindow, bit);
      inboundWindow, accepted := Or(inboundWindow, bit), accepted + {sequence};
      fits := true;
    }

    /** The next number to send, or none once the counter is exhausted: it never wraps. */
    method NextUdpSequence() returns (sequence: Word)
      modifies `outboundSequence
      ensures old(outboundSequence) < MAX_WORD ==> sequence == outboundSequence == old(outboundSequence) + 1
      ensures old(outboundSequence) == MAX_WORD ==> sequence == 0 && outboundSequence == old(outboundSequence)
    {
      if outboundSequence == MAX_WORD {
        return 0;
      }
      outboundSequence := outboundSequence + 1;
      sequence := outboundSequence;
    }
  }

  /** Numbers sent in counting order are all accepted, whatever was lost on the way. */
  lemma {:induction false} CountingIsAccepted(history: seq<Word>, s: Word)
    requires s > 0 && forall i :: 0 <= i < |history| ==> history[i] < s
    ensures GoAccept(GoRun(history), s).1 && SwiftAccept(SwiftRun(history), s).1
    decreases |history|
  {
    AcceptedWereSent(history);
    BothDecideAlike(history, s);
    RunsRepresent(history);
  }

  lemma {:induction false} AcceptedWereSent(history: seq<Word>)
    ensures forall a :: a in Accepted(history) ==> a in history
    decreases |history|
  {
    if history != [] {
      AcceptedWereSent(history[..|history| - 1]);
    }
  }
}
