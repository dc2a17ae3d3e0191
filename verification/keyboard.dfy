/** The game's key-edge detector (`keyPressed`, Piemaker.cpp:118-129).

    The source keeps a static table of 256 "was down at the last poll" bits
    and reads the physical key state through the operating system. Here the
    table is the set of keys last seen down, and the physical state of the
    polled key is an input bit.
 */
module Keyboard {

  /** A virtual-key code: an index into the 256-entry key table. */
  type KeyCode = k: int | 0 <= k < 256

  /** What one poll reports, and the key table after it. */
  datatype Poll = Poll(pressed: bool, held: set<KeyCode>)

  /** Polls `key` whose physical state is `down`. Reports a press only on a
      rising edge, and afterwards the table remembers exactly the current
      physical state of `key`; no other entry of the table changes. */
  function KeyPressed(held: set<KeyCode>, key: KeyCode, down: bool): (r: Poll)
    ensures r.pressed <==> down && key !in held
    ensures key in r.held <==> down
    ensures forall k :: k != key ==> (k in r.held <==> k in held)
  {
    if down && key !in held then
      Poll(true, held + {key})
    else if !down then
      Poll(false, held - {key})
    else
      Poll(false, held)
  }

  /** The reports of successive polls of one key, given its physical state
      at each poll. */
  function Reports(held: set<KeyCode>, key: KeyCode, downs: seq<bool>): seq<bool>
    decreases |downs|
  {
    if |downs| == 0 then []
    else
      var p := KeyPressed(held, key, downs[0]);
      [p.pressed] + Reports(p.held, key, downs[1..])
  }

  /** Number of `true` entries in a sequence of reports. */
  function Presses(reports: seq<bool>): nat
  {
    if |reports| == 0 then 0
    else (if reports[0] then 1 else 0) + Presses(reports[1..])
  }

  /** Reference definition: the number of up-to-down transitions in the
      physical key state, starting from the state `wasDown`. */
  function RisingEdges(wasDown: bool, downs: seq<bool>): nat
    decreases |downs|
  {
    if |downs| == 0 then 0
    else (if downs[0] && !wasDown then 1 else 0) + RisingEdges(downs[0], downs[1..])
  }

  lemma {:induction false} ReportsLength(held: set<KeyCode>, key: KeyCode, downs: seq<bool>)
    ensures |Reports(held, key, downs)| == |downs|
    decreases |downs|
  {
    if |downs| > 0 {
      ReportsLength(KeyPressed(held, key, downs[0]).held, key, downs[1..]);
    }
  }

  /** The detector reports exactly one press per rising edge of the physical
      key state: polling never invents or loses a press. */
  lemma {:induction false} PressesAreRisingEdges(held: set<KeyCode>, key: KeyCode, downs: seq<bool>)
    ensures Presses(Reports(held, key, downs)) == RisingEdges(key in held, downs)
    decreases |downs|
  {
    if |downs| > 0 {
      var p := KeyPressed(held, key, downs[0]);
      PressesAreRisingEdges(p.held, key, downs[1..]);
      var rs := Reports(held, key, downs);
      assert rs[0] == p.pressed;
      assert rs[1..] == Reports(p.held, key, downs[1..]);
    }
  }

  /** A key held down across consecutive polls is reported at most once: on
      the first poll if it was up before, and never after that. */
  lemma {:induction false} HeldKeyReportsOnce(held: set<KeyCode>, key: KeyCode, downs: seq<bool>)
    requires forall i :: 0 <= i < |downs| ==> downs[i]
    ensures |Reports(held, key, downs)| == |downs|
    ensures forall i :: 0 <= i < |downs| ==>
      (Reports(held, key, downs)[i] <==> i == 0 && key !in held)
    decreases |downs|
  {
    ReportsLength(held, key, downs);
    if |downs| > 0 {
      var p := KeyPressed(held, key, downs[0]);
      HeldKeyReportsOnce(p.held, key, downs[1..]);
      assert key in p.held;
      var rs := Reports(held, key, downs);
      assert rs[1..] == Reports(p.held, key, downs[1..]);
      forall i | 0 < i < |downs|
        ensures !rs[i]
      {
        assert rs[i] == rs[1..][i - 1];
      }
    }
  }
}
