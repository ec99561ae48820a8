/**
 * The global easter-egg listeners of the page: the Konami-code matcher, the
 * rapid-click counter with its quiet-period timer, the held-`S` detector, the
 * matrix-rain overlay that the Konami code starts, the click particle burst
 * and the rainbow-mode schedule.
 *
 * Each listener is a class whose fields are the handler's mutable variables.
 * A ghost field records the events the listener has seen, and the object
 * invariant ties the real fields to a pure replay of that history; the
 * lemmas about the replay functions are what the listener promises.
 * Timer callbacks are events delivered by the host (`TimerElapsed`); the
 * delays themselves (2000 ms, 3000 ms) are the host's business.
 */
module EasterEggs {

  import opened Common

  // ---------------------------------------------------------------------
  // Konami code
  // ---------------------------------------------------------------------

  /** The key sequence, compared with `KeyboardEvent.key` case-sensitively. */
  const KonamiCode: seq<string> := [
    "ArrowUp", "ArrowUp", "ArrowDown", "ArrowDown",
    "ArrowLeft", "ArrowRight", "ArrowLeft", "ArrowRight",
    "b", "a"
  ]

  /** One keydown: the next index and whether this key completes the code. */
  function KonamiStep(index: nat, key: string): (r: (nat, bool))
    requires index < |KonamiCode|
    ensures r.0 < |KonamiCode|
  {
    if key == KonamiCode[index] then
      if index + 1 == |KonamiCode| then (0, true) else (index + 1, false)
    else
      (0, false)
  }

  /** `konamiIndex` after the listener has seen `keys`, starting from 0. */
  function KonamiIndexAfter(keys: seq<string>): (i: nat)
    ensures i < |KonamiCode|
  {
    if keys == [] then 0
    else KonamiStep(KonamiIndexAfter(keys[..|keys| - 1]), keys[|keys| - 1]).0
  }

  /** Whether the last key of `keys` shows the success banner. */
  predicate KonamiFiresOn(keys: seq<string>)
    requires keys != []
  {
    KonamiStep(KonamiIndexAfter(keys[..|keys| - 1]), keys[|keys| - 1]).1
  }

  /** A suffix of `keys` that spells `code[..i]`, followed by `code[i]`, spells `code[..i + 1]`. */
  lemma MatchedSuffixGrows(keys: seq<string>, code: seq<string>, i: nat)
    requires 0 < |keys| && i < |code| && i < |keys|
    requires keys[..|keys| - 1][|keys| - 1 - i..] == code[..i] && keys[|keys| - 1] == code[i]
    ensures keys[|keys| - (i + 1)..] == code[..i + 1]
  {
    var n := |keys| - 1;
    assert keys[|keys| - (i + 1)..] == keys[..n][n - i..] + [keys[n]];
    assert code[..i + 1] == code[..i] + [code[i]];
  }

  /** The index always counts the most recent keys, and they spell the start of the code. */
  lemma {:induction false} KonamiIndexIsMatchedPrefix(keys: seq<string>)
    ensures KonamiIndexAfter(keys) <= |keys|
    ensures keys[|keys| - KonamiIndexAfter(keys)..] == KonamiCode[..KonamiIndexAfter(keys)]
  {
    if keys != [] {
      var n := |keys| - 1;
      var pre := keys[..n];
      KonamiIndexIsMatchedPrefix(pre);
      var i := KonamiIndexAfter(pre);
      assert keys[..n] == pre;
      if keys[n] == KonamiCode[i] && i + 1 < |KonamiCode| {
        assert KonamiIndexAfter(keys) == i + 1;
        MatchedSuffixGrows(keys, KonamiCode, i);
      } else {
        assert KonamiIndexAfter(keys) == 0;
      }
    }
  }

  /** Success fires only on a key that ends the full ten-key code. */
  lemma KonamiFiresOnlyOnFullCode(keys: seq<string>)
    requires keys != [] && KonamiFiresOn(keys)
    ensures |keys| >= |KonamiCode|
    ensures keys[|keys| - |KonamiCode|..] == KonamiCode
  {
    var n := |keys| - 1;
    KonamiIndexIsMatchedPrefix(keys[..n]);
    assert keys[n - 9..] == keys[..n][n - 9..] + [keys[n]];
    assert KonamiCode == KonamiCode[..9] + [KonamiCode[9]];
  }

  /** From index 0, the first k keys of the code move the index to k. */
  lemma {:induction false} KonamiCodeAdvances(prefix: seq<string>, k: nat)
    requires KonamiIndexAfter(prefix) == 0 && k < |KonamiCode|
    ensures KonamiIndexAfter(prefix + KonamiCode[..k]) == k
  {
    if k == 0 {
      assert prefix + KonamiCode[..0] == prefix;
    } else {
      KonamiCodeAdvances(prefix, k - 1);
      KonamiNextKeyAdvances(prefix, k);
    }
  }

  /** From index 0, none of the first k keys of the code fires, for k below ten. */
  lemma KonamiCodeSilentBeforeLastKey(prefix: seq<string>, k: nat)
    requires KonamiIndexAfter(prefix) == 0 && k < |KonamiCode|
    ensures forall m :: 0 < m <= k ==> !KonamiFiresOn(prefix + KonamiCode[..m])
  {
    forall m | 0 < m <= k
      ensures !KonamiFiresOn(prefix + KonamiCode[..m])
    {
      KonamiCodeAdvances(prefix, m - 1);
      KonamiNextKeyAdvances(prefix, m);
    }
  }

  /** Key k of the code, typed at index k - 1, moves the index to k without firing. */
  lemma KonamiNextKeyAdvances(prefix: seq<string>, k: nat)
    requires 0 < k < |KonamiCode| && KonamiIndexAfter(prefix + KonamiCode[..k - 1]) == k - 1
    ensures KonamiIndexAfter(prefix + KonamiCode[..k]) == k
    ensures !KonamiFiresOn(prefix + KonamiCode[..k])
  {
    var keys := prefix + KonamiCode[..k];
    assert keys[..|keys| - 1] == prefix + KonamiCode[..k - 1];
    assert keys[|keys| - 1] == KonamiCode[k - 1];
  }

  /**
   * Typing the code from index 0 fires exactly once, on its tenth key, and
   * leaves the index at 0 again.
   */
  lemma KonamiCodeFiresOnce(prefix: seq<string>)
    requires KonamiIndexAfter(prefix) == 0
    ensures KonamiFiresOn(prefix + KonamiCode)
    ensures KonamiIndexAfter(prefix + KonamiCode) == 0
    ensures forall m :: 0 < m < |KonamiCode| ==> !KonamiFiresOn(prefix + KonamiCode[..m])
  {
    KonamiCodeAdvances(prefix, 9);
    KonamiCodeSilentBeforeLastKey(prefix, 9);
    var keys := prefix + KonamiCode;
    assert keys[..|keys| - 1] == prefix + KonamiCode[..9];
  }

  /** At index 0, keys other than the first key of the code keep the index at 0 and never fire. */
  lemma {:induction false} KonamiStaysAtZero(prefix: seq<string>, rest: seq<string>)
    requires KonamiIndexAfter(prefix) == 0
    requires forall k :: 0 <= k < |rest| ==> rest[k] != KonamiCode[0]
    ensures KonamiIndexAfter(prefix + rest) == 0
    ensures forall m :: 0 < m <= |rest| ==> !KonamiFiresOn(prefix + rest[..m])
  {
    if rest != [] {
      var n := |rest| - 1;
      KonamiStaysAtZero(prefix, rest[..n]);
      assert (prefix + rest)[..|prefix + rest| - 1] == prefix + rest[..n];
      assert (prefix + rest)[|prefix + rest| - 1] == rest[n] != KonamiCode[0];
      forall m | 0 < m <= n
        ensures !KonamiFiresOn(prefix + rest[..m])
      {
        assert rest[..m] == rest[..n][..m];
      }
      assert rest[..|rest|] == rest;
    } else {
      assert prefix + rest == prefix;
    }
  }

  /**
   * A mismatch is not re-tested against the first key: after Up, Up, Up the
   * index is 0 and the Down that follows does not match Up, so the stream
   * Up, Up, Up, Down, Down, Left, Right, Left, Right, b, a never fires.
   */
  lemma ExtraUpNeverCompletes()
    ensures forall m :: 0 < m <= |KonamiCode| + 1 ==> !KonamiFiresOn((["ArrowUp"] + KonamiCode)[..m])
  {
    var keys := ["ArrowUp"] + KonamiCode;
    assert keys[..1] == ["ArrowUp"];
    assert KonamiIndexAfter(keys[..1]) == 1 by { assert keys[..1][..0] == []; }
    assert KonamiIndexAfter(keys[..2]) == 2 by { assert keys[..2][..1] == keys[..1]; }
    assert KonamiIndexAfter(keys[..3]) == 0 by { assert keys[..3][..2] == keys[..2]; }
    var rest := KonamiCode[2..];
    assert keys[..3] + rest == keys;
    KonamiStaysAtZero(keys[..3], rest);
    forall m | 0 < m <= |keys|
      ensures !KonamiFiresOn(keys[..m])
    {
      if m <= 3 {
        assert keys[..m][..m - 1] == keys[..m - 1];
        assert m - 1 == 0 ==> keys[..m - 1] == [];
      } else {
        assert keys[..m] == keys[..3] + rest[..m - 3];
      }
    }
  }

  /** Matching is case-sensitive: an upper-case B or A breaks the code. */
  lemma KonamiIsCaseSensitive()
    ensures KonamiIndexAfter(KonamiCode[..8] + ["B"]) == 0
    ensures !KonamiFiresOn(KonamiCode[..9] + ["A"])
  {
    KonamiCodeAdvances([], 8);
    KonamiCodeAdvances([], 9);
    assert [] + KonamiCode[..8] == KonamiCode[..8];
    assert [] + KonamiCode[..9] == KonamiCode[..9];
    var b := KonamiCode[..8] + ["B"];
    assert b[..|b| - 1] == KonamiCode[..8];
    var a := KonamiCode[..9] + ["A"];
    assert a[..|a| - 1] == KonamiCode[..9];
  }

  /** The `keydown` listener installed by `setupKonamiCode`, with its module-level `konamiIndex`. */
  class KonamiListener {
    var konamiIndex: nat
    ghost var keys: seq<string>

    ghost predicate Valid()
      reads this
    {
      konamiIndex == KonamiIndexAfter(keys)
    }

    constructor ()
      ensures Valid() && keys == [] && konamiIndex == 0
    {
      konamiIndex := 0;
      keys := [];
    }

    /** Handles one `keydown`; `success` is the call of `triggerKonamiSuccess`. */
    method KeyDown(key: string) returns (success: bool)
      requires Valid()
      modifies this
      ensures Valid() && keys == old(keys) + [key]
      ensures success == KonamiFiresOn(keys)
      ensures konamiIndex < |KonamiCode|
      ensures key != KonamiCode[old(konamiIndex)] ==> konamiIndex == 0 && !success
    {
      keys := keys + [key];
      assert keys[..|keys| - 1] == old(keys);
      success := false;
      if key == KonamiCode[konamiIndex] {
        konamiIndex := konamiIndex + 1;
        if konamiIndex == |KonamiCode| {
          success := true;
          konamiIndex := 0;
        }
      } else {
        konamiIndex := 0;
      }
    }
  }

  // ---------------------------------------------------------------------
  // Rapid clicks
  // ---------------------------------------------------------------------

  /** Clicks needed in one burst for rainbow mode. */
  const RainbowClicks := 10

  datatype ClickEvent = Click | QuietPeriodElapsed

  /** `clickCount` and whether the 2000 ms `clickTimer` callback is still pending. */
  datatype ClickState = ClickState(clickCount: nat, timerPending: bool)

  const ClickIdle := ClickState(0, false)

  /** One event: the next state and whether rainbow mode is triggered. */
  function ClickStep(s: ClickState, e: ClickEvent): (ClickState, bool)
  {
    match e
    case Click => (ClickState(s.clickCount + 1, true), false)
    case QuietPeriodElapsed =>
      if s.timerPending then (ClickState(0, false), s.clickCount >= RainbowClicks) else (s, false)
  }

  function ClickStateAfter(events: seq<ClickEvent>): ClickState
  {
    if events == [] then ClickIdle
    else ClickStep(ClickStateAfter(events[..|events| - 1]), events[|events| - 1]).0
  }

  predicate RainbowOn(events: seq<ClickEvent>)
    requires events != []
  {
    ClickStep(ClickStateAfter(events[..|events| - 1]), events[|events| - 1]).1
  }

  function ClicksIn(events: seq<ClickEvent>): nat
  {
    if events == [] then 0
    else ClicksIn(events[..|events| - 1]) + (if events[|events| - 1] == Click then 1 else 0)
  }

  function RainbowsIn(events: seq<ClickEvent>): nat
  {
    if events == [] then 0
    else RainbowsIn(events[..|events| - 1]) + (if RainbowOn(events) then 1 else 0)
  }

  function Clicks(n: nat): (r: seq<ClickEvent>)
    ensures |r| == n && forall k :: 0 <= k < n ==> r[k] == Click
  {
    if n == 0 then [] else Clicks(n - 1) + [Click]
  }

  /**
   * The timer is pending exactly while clicks are counted, and every rainbow
   * consumed at least ten clicks: rainbows are at most a tenth of all clicks.
   */
  lemma {:induction false} RainbowConsumesTenClicks(events: seq<ClickEvent>)
    ensures ClickStateAfter(events).timerPending <==> ClickStateAfter(events).clickCount > 0
    ensures RainbowClicks * RainbowsIn(events) + ClickStateAfter(events).clickCount <= ClicksIn(events)
  {
    if events != [] {
      RainbowConsumesTenClicks(events[..|events| - 1]);
    }
  }

  /**
   * A burst of n clicks from the idle state counts to n without ever
   * triggering; the quiet period that follows triggers rainbow mode iff
   * n >= 10 and returns to idle either way.
   */
  lemma {:induction false} ClickBurst(prefix: seq<ClickEvent>, n: nat)
    requires ClickStateAfter(prefix) == ClickIdle
    ensures ClickStateAfter(prefix + Clicks(n)) == ClickState(n, n > 0)
    ensures forall m :: 0 < m <= n ==> !RainbowOn(prefix + Clicks(m))
    ensures RainbowOn(prefix + Clicks(n) + [QuietPeriodElapsed]) <==> n >= RainbowClicks
    ensures ClickStateAfter(prefix + Clicks(n) + [QuietPeriodElapsed]) == ClickIdle
  {
    if n == 0 {
      assert prefix + Clicks(0) == prefix;
    } else {
      ClickBurst(prefix, n - 1);
      var t := prefix + Clicks(n);
      assert t[..|t| - 1] == prefix + Clicks(n - 1);
    }
    var u := prefix + Clicks(n) + [QuietPeriodElapsed];
    assert u[..|u| - 1] == prefix + Clicks(n);
  }

  /** The `click` listener installed by `setupClickParticles`, with `clickCount` and `clickTimer`. */
  class ClickTracker {
    var clickCount: nat
    var clickTimerPending: bool
    ghost var events: seq<ClickEvent>

    ghost predicate Valid()
      reads this
    {
      ClickState(clickCount, clickTimerPending) == ClickStateAfter(events)
    }

    constructor ()
      ensures Valid() && events == [] && clickCount == 0
    {
      clickCount := 0;
      clickTimerPending := false;
      events := [];
    }

    /**
     * A click at (x, y): spawns the particle burst, counts the click and
     * restarts the quiet-period timer. It never triggers rainbow mode itself.
     */
    method OnClick(x: real, y: real, colorRolls: seq<real>, speedRolls: seq<real>)
      returns (burst: seq<BurstParticle>)
      requires Valid()
      requires BurstRolls(colorRolls) && BurstRolls(speedRolls)
      modifies this
      ensures Valid() && events == old(events) + [Click]
      ensures clickCount == old(clickCount) + 1 && clickTimerPending
      ensures |burst| == BurstSize
      ensures forall i :: 0 <= i < BurstSize ==>
        && burst[i].left == x && burst[i].top == y
        && burst[i].color == Palette[PaletteIndex(colorRolls[i])]
        && burst[i].turn == i as real / BurstSize as real
        && burst[i].reach == (2.0 + speedRolls[i] * 2.0) * 50.0
    {
      burst := CreateParticleBurst(x, y, colorRolls, speedRolls);
      events := events + [Click];
      assert events[..|events| - 1] == old(events);
      clickCount := clickCount + 1;
      clickTimerPending := true;
    }

    /** The timer callback: rainbow mode iff at least ten clicks were counted; the count restarts. */
    method TimerElapsed() returns (rainbow: bool)
      requires Valid()
      modifies this
      ensures Valid() && events == old(events) + [QuietPeriodElapsed]
      ensures rainbow == RainbowOn(events)
      ensures rainbow <==> old(clickTimerPending) && old(clickCount) >= RainbowClicks
      ensures clickCount == 0 && !clickTimerPending
    {
      events := events + [QuietPeriodElapsed];
      assert events[..|events| - 1] == old(events);
      rainbow := false;
      if clickTimerPending {
        clickTimerPending := false;
        if clickCount >= RainbowClicks {
          rainbow := true;
        }
        clickCount := 0;
      }
      RainbowConsumesTenClicks(old(events));
    }
  }

  // ---------------------------------------------------------------------
  // Held S key
  // ---------------------------------------------------------------------

  /** `String.prototype.toLowerCase` on one character; only ASCII letters are case-mapped here. */
  function LowerChar(c: char): char
  {
    if 'A' <= c <= 'Z' then (c as int + 32) as char else c
  }

  /**
   * Lower-casing keeps the length, leaves no upper-case letter behind,
   * leaves every other character alone, and moves each upper-case letter to
   * the lower-case letter at the same place in the alphabet.
   */
  function ToLowerCase(s: string): (r: string)
    ensures |r| == |s|
    ensures forall i :: 0 <= i < |r| ==> !('A' <= r[i] <= 'Z')
    ensures forall i :: 0 <= i < |s| && !('A' <= s[i] <= 'Z') ==> r[i] == s[i]
    ensures forall i :: 0 <= i < |s| && 'A' <= s[i] <= 'Z' ==>
      'a' <= r[i] <= 'z' && r[i] as int - 'a' as int == s[i] as int - 'A' as int
  {
    seq(|s|, i requires 0 <= i < |s| => LowerChar(s[i]))
  }

  /** Lower-casing twice is lower-casing once. */
  lemma ToLowerCaseIdempotent(s: string)
    ensures ToLowerCase(ToLowerCase(s)) == ToLowerCase(s)
  {
    var r := ToLowerCase(s);
    assert forall i :: 0 <= i < |r| ==> ToLowerCase(r)[i] == r[i];
  }

  /** The `e.key.toLowerCase() === 's'` test of both secret-key listeners. */
  predicate IsSecretKey(key: string)
  {
    ToLowerCase(key) == "s"
  }

  /** The secret key is recognised in either case, unlike the Konami keys. */
  lemma SecretKeyIgnoresCase(key: string)
    ensures IsSecretKey(key) <==> key == "s" || key == "S"
  {
    if IsSecretKey(key) {
      assert |key| == 1 && LowerChar(key[0]) == 's';
      assert key == [key[0]];
    }
  }

  datatype KeyEvent = KeyDown(key: string) | KeyUp(key: string) | SecretTimerElapsed

  /**
   * The closure variable `sKeyTimer`: null, the handle of a pending 3000 ms
   * timeout, or the handle of a timeout that already ran (it is never nulled
   * by the callback, so it stays truthy).
   */
  datatype SecretTimer = Idle | Pending | Spent

  /** One event: the next timer state and whether the secret message is shown. */
  function SecretStep(t: SecretTimer, e: KeyEvent): (SecretTimer, bool)
  {
    match e
    case KeyDown(k) => (if IsSecretKey(k) && t == Idle then Pending else t, false)
    case KeyUp(k) => (if IsSecretKey(k) then Idle else t, false)
    case SecretTimerElapsed => if t == Pending then (Spent, true) else (t, false)
  }

  function SecretAfter(events: seq<KeyEvent>): SecretTimer
  {
    if events == [] then Idle
    else SecretStep(SecretAfter(events[..|events| - 1]), events[|events| - 1]).0
  }

  predicate SecretShownOn(events: seq<KeyEvent>)
    requires events != []
  {
    SecretStep(SecretAfter(events[..|events| - 1]), events[|events| - 1]).1
  }

  function SecretShows(events: seq<KeyEvent>): nat
  {
    if events == [] then 0
    else SecretShows(events[..|events| - 1]) + (if SecretShownOn(events) then 1 else 0)
  }

  predicate IsSecretRelease(e: KeyEvent)
  {
    e.KeyUp? && IsSecretKey(e.key)
  }

  function SecretReleases(events: seq<KeyEvent>): nat
  {
    if events == [] then 0
    else SecretReleases(events[..|events| - 1]) + (if IsSecretRelease(events[|events| - 1]) then 1 else 0)
  }

  /** The S key went down and has not been released since. */
  predicate SecretKeyHeld(events: seq<KeyEvent>)
  {
    if events == [] then false
    else match events[|events| - 1]
      case KeyDown(k) => IsSecretKey(k) || SecretKeyHeld(events[..|events| - 1])
      case KeyUp(k) => !IsSecretKey(k) && SecretKeyHeld(events[..|events| - 1])
      case SecretTimerElapsed => SecretKeyHeld(events[..|events| - 1])
  }

  /**
   * The secret is shown at most once per press: every show but the one of
   * the current press is matched by an earlier release of S.
   */
  lemma {:induction false} SecretShownOncePerPress(events: seq<KeyEvent>)
    ensures SecretShows(events) <= SecretReleases(events) + (if SecretAfter(events) == Spent then 1 else 0)
    ensures SecretShows(events) <= SecretReleases(events) + 1
  {
    if events != [] {
      SecretShownOncePerPress(events[..|events| - 1]);
    }
  }

  /** Showing the secret leaves the handle set to a timeout that already ran. */
  lemma SecretShowLeavesSpent(events: seq<KeyEvent>)
    requires events != [] && SecretShownOn(events)
    ensures SecretAfter(events) == Spent
  {
  }

  /**
   * Once the secret has shown, it cannot show again until S is released:
   * whatever keys follow, short of an S release, the handle stays spent and
   * no further timer event shows the secret.
   */
  lemma {:induction false} SecretShownOncePerHold(events: seq<KeyEvent>, rest: seq<KeyEvent>)
    requires SecretAfter(events) == Spent
    requires forall k :: 0 <= k < |rest| ==> !IsSecretRelease(rest[k])
    ensures SecretAfter(events + rest) == Spent
    ensures forall m :: 0 < m <= |rest| ==> !SecretShownOn(events + rest[..m])
  {
    if rest != [] {
      var n := |rest| - 1;
      SecretShownOncePerHold(events, rest[..n]);
      var e := events + rest;
      assert e[..|e| - 1] == events + rest[..n];
      forall m | 0 < m <= |rest|
        ensures !SecretShownOn(events + rest[..m])
      {
        if m <= n {
          assert rest[..m] == rest[..n][..m];
        } else {
          assert rest[..m] == rest;
        }
      }
    } else {
      assert events + rest == events;
    }
  }

  /**
   * A timer is armed or spent only while S is held, so the secret can show
   * only during a press that has not been released since it armed the timer.
   */
  lemma {:induction false} SecretNeedsHeldKey(events: seq<KeyEvent>)
    ensures SecretAfter(events) != Idle ==> SecretKeyHeld(events)
    ensures events != [] && SecretShownOn(events) ==> SecretKeyHeld(events)
  {
    if events != [] {
      SecretNeedsHeldKey(events[..|events| - 1]);
    }
  }

  /** A release of S cancels the pending timer: the callback then shows nothing. */
  lemma ReleaseCancelsSecret(events: seq<KeyEvent>, key: string)
    requires IsSecretKey(key)
    ensures !SecretShownOn(events + [KeyUp(key), SecretTimerElapsed])
  {
    var e := events + [KeyUp(key), SecretTimerElapsed];
    assert e[..|e| - 1] == events + [KeyUp(key)];
    assert (events + [KeyUp(key)])[..|events|] == events;
  }

  /** The `keydown`/`keyup` listeners installed by `setupSecretMessage`, with `sKeyTimer`. */
  class SecretKeyListener {
    var sKeyTimer: SecretTimer
    ghost var events: seq<KeyEvent>

    ghost predicate Valid()
      reads this
    {
      sKeyTimer == SecretAfter(events)
    }

    constructor ()
      ensures Valid() && events == [] && sKeyTimer == Idle
    {
      sKeyTimer := Idle;
      events := [];
    }

    /** Arms the timer on S only if no handle is set: auto-repeat neither restarts nor re-arms it. */
    method OnKeyDown(key: string)
      requires Valid()
      modifies this
      ensures Valid() && events == old(events) + [KeyDown(key)]
      ensures sKeyTimer == (if IsSecretKey(key) && old(sKeyTimer) == Idle then Pending else old(sKeyTimer))
    {
      events := events + [KeyDown(key)];
      assert events[..|events| - 1] == old(events);
      if ToLowerCase(key) == "s" {
        if sKeyTimer == Idle {
          sKeyTimer := Pending;
        }
      }
    }

    /** Releasing S clears the timer and the handle. */
    method OnKeyUp(key: string)
      requires Valid()
      modifies this
      ensures Valid() && events == old(events) + [KeyUp(key)]
      ensures sKeyTimer == (if IsSecretKey(key) then Idle else old(sKeyTimer))
    {
      events := events + [KeyUp(key)];
      assert events[..|events| - 1] == old(events);
      if ToLowerCase(key) == "s" {
        sKeyTimer := Idle;
      }
    }

    /** The 3000 ms callback: shows the secret; the handle stays set. */
    method TimerElapsed() returns (shown: bool)
      requires Valid()
      modifies this
      ensures Valid() && events == old(events) + [SecretTimerElapsed]
      ensures shown == SecretShownOn(events)
      ensures shown <==> old(sKeyTimer) == Pending
      ensures sKeyTimer == (if shown then Spent else old(sKeyTimer))
    {
      events := events + [SecretTimerElapsed];
      assert events[..|events| - 1] == old(events);
      shown := sKeyTimer == Pending;
      if shown {
        sKeyTimer := Spent;
      }
    }
  }

  // ---------------------------------------------------------------------
  // Matrix rain
  // ---------------------------------------------------------------------

  const FontSize := 14
  const MaxFrames := 200
  /** A drop below the bottom edge restarts only when its random draw exceeds this. */
  const RainRestartThreshold: real := 0.975

  /** One column in one frame: a drop below the bottom edge may restart at the top; then it falls one row. */
  function RainDrop(drop: int, height: nat, roll: real): (r: int)
    ensures drop * FontSize <= height ==> r == drop + 1
    ensures r == drop + 1 || (r == 1 && drop * FontSize > height)
  {
    (if drop * FontSize > height && roll > RainRestartThreshold then 0 else drop) + 1
  }

  /** One frame over all columns; `roll(frame, i)` is the frame's random draw for column i. */
  function RainFrame(drops: seq<int>, height: nat, frame: nat, roll: (nat, nat) -> real): (r: seq<int>)
    ensures |r| == |drops|
  {
    seq(|drops|, i requires 0 <= i < |drops| => RainDrop(drops[i], height, roll(frame, i)))
  }

  /** The drops after `frames` frames. */
  function RainAfter(drops: seq<int>, height: nat, roll: (nat, nat) -> real, frames: nat): (r: seq<int>)
    ensures |r| == |drops|
  {
    if frames == 0 then drops
    else RainFrame(RainAfter(drops, height, roll, frames - 1), height, frames - 1, roll)
  }

  function Ones(n: nat): (r: seq<int>)
    ensures |r| == n && forall i :: 0 <= i < n ==> r[i] == 1
  {
    seq(n, i => 1)
  }

  /** Every drop is at least 1 after each frame, and a drop never gets ahead of the frame count. */
  lemma {:induction false} RainDropsStayOnGrid(columns: nat, height: nat, roll: (nat, nat) -> real, frames: nat)
    ensures forall i :: 0 <= i < columns ==> 1 <= RainAfter(Ones(columns), height, roll, frames)[i] <= frames + 1
  {
    if frames > 0 {
      RainDropsStayOnGrid(columns, height, roll, frames - 1);
      var prev := RainAfter(Ones(columns), height, roll, frames - 1);
      forall i | 0 <= i < columns
        ensures 1 <= RainAfter(Ones(columns), height, roll, frames)[i] <= frames + 1
      {
        assert RainAfter(Ones(columns), height, roll, frames)[i] == RainDrop(prev[i], height, roll(frames - 1, i));
      }
    }
  }

  /** Draws one frame, updating `drops` in place. */
  method DrawRainFrame(drops: array<int>, height: nat, frame: nat, roll: (nat, nat) -> real)
    modifies drops
    ensures drops[..] == RainFrame(old(drops[..]), height, frame, roll)
  {
    for i := 0 to drops.Length
      invariant forall k :: 0 <= k < i ==> drops[k] == RainDrop(old(drops[k]), height, roll(frame, k))
      invariant forall k :: i <= k < drops.Length ==> drops[k] == old(drops[k])
    {
      if drops[i] * FontSize > height && roll(frame, i) > RainRestartThreshold {
        drops[i] := 0;
      }
      drops[i] := drops[i] + 1;
    }
  }

  /**
   * `createMatrixRain`: floor(width / 14) drops start at 1, exactly 200
   * frames are drawn, then the canvas is removed.
   */
  method CreateMatrixRain(width: nat, height: nat, roll: (nat, nat) -> real)
    returns (drops: array<int>, framesDrawn: nat)
    ensures fresh(drops) && drops.Length == width / FontSize
    ensures framesDrawn == MaxFrames
    ensures drops[..] == RainAfter(Ones(width / FontSize), height, roll, MaxFrames)
    ensures forall i :: 0 <= i < drops.Length ==> drops[i] >= 1
  {
    drops := new int[width / FontSize](i => 1);
    assert drops[..] == Ones(width / FontSize);
    framesDrawn := 0;
    var removed := false;
    while !removed
      invariant 0 <= framesDrawn <= MaxFrames
      invariant removed <==> framesDrawn == MaxFrames
      invariant drops[..] == RainAfter(Ones(width / FontSize), height, roll, framesDrawn)
      decreases MaxFrames - framesDrawn
    {
      DrawRainFrame(drops, height, framesDrawn, roll);
      framesDrawn := framesDrawn + 1;
      if framesDrawn >= MaxFrames {
        removed := true;
      }
    }
    RainDropsStayOnGrid(width / FontSize, height, roll, MaxFrames);
  }

  // ---------------------------------------------------------------------
  // Click particle burst and rainbow mode
  // ---------------------------------------------------------------------

  const BurstSize := 15
  const Palette: seq<string> := [
    "rgba(255, 0, 0, 0.8)", "rgba(255, 165, 0, 0.8)", "rgba(255, 255, 0, 0.8)",
    "rgba(0, 255, 0, 0.8)", "rgba(0, 0, 255, 0.8)", "rgba(148, 0, 211, 0.8)"
  ]

  /**
   * One burst particle: where it starts, its colour, its direction as a
   * fraction of a full turn (the angle is 2 pi times `turn`), and how far it
   * travels (`velocity * 50` px).
   */
  datatype BurstParticle = BurstParticle(left: real, top: real, color: string, turn: real, reach: real)

  predicate BurstRolls(rolls: seq<real>)
  {
    |rolls| == BurstSize && forall i :: 0 <= i < |rolls| ==> IsRoll(rolls[i])
  }

  /** `Math.floor(Math.random() * colors.length)`: always a valid palette index. */
  function PaletteIndex(roll: real): (k: nat)
    requires IsRoll(roll)
    ensures k < |Palette|
    ensures k as real <= roll * 6.0 < k as real + 1.0
  {
    (roll * 6.0).Floor
  }

  /**
   * `createParticleBurst`: fifteen particles at (x, y), evenly spaced in
   * angle, each with a palette colour and a speed in [2, 4).
   */
  method CreateParticleBurst(x: real, y: real, colorRolls: seq<real>, speedRolls: seq<real>)
    returns (burst: seq<BurstParticle>)
    requires BurstRolls(colorRolls) && BurstRolls(speedRolls)
    ensures |burst| == BurstSize
    ensures forall i :: 0 <= i < BurstSize ==>
      && burst[i].left == x && burst[i].top == y
      && burst[i].color == Palette[PaletteIndex(colorRolls[i])]
      && burst[i].turn == i as real / BurstSize as real
      && burst[i].reach == (2.0 + speedRolls[i] * 2.0) * 50.0
      && 100.0 <= burst[i].reach < 200.0
  {
    burst := [];
    for i := 0 to BurstSize
      invariant |burst| == i
      invariant forall k :: 0 <= k < i ==>
        && burst[k].left == x && burst[k].top == y
        && burst[k].color == Palette[PaletteIndex(colorRolls[k])]
        && burst[k].turn == k as real / BurstSize as real
        && burst[k].reach == (2.0 + speedRolls[k] * 2.0) * 50.0
        && 100.0 <= burst[k].reach < 200.0
    {
      var color := Palette[PaletteIndex(colorRolls[i])];
      var turn := i as real / BurstSize as real;
      var velocity := 2.0 + speedRolls[i] * 2.0;
      burst := burst + [BurstParticle(x, y, color, turn, velocity * 50.0)];
    }
  }

  /** A timeout set by `triggerRainbowMode`, with its delay from the trigger. */
  datatype RainbowTimer =
    | Highlight(box: nat, atMs: nat)
    | Unhighlight(box: nat, atMs: nat)
    | Fireworks(atMs: nat, x: real, y: real)

  /** The m-th burst of fireworks: at 200·m ms, somewhere inside the viewport. */
  predicate IsFireworks(t: RainbowTimer, m: nat, width: nat, height: nat)
  {
    && t.Fireworks?
    && t.atMs == FireworksStaggerMs * m
    && 0.0 <= t.x <= width as real
    && 0.0 <= t.y <= height as real
  }

  /** Box k lights up at 100·k ms and goes dark 2000 ms after that. */
  predicate HighlightsBox(plan: seq<RainbowTimer>, k: nat)
  {
    && 2 * k + 1 < |plan|
    && plan[2 * k] == Highlight(k, RainbowStaggerMs * k)
    && plan[2 * k + 1] == Unhighlight(k, RainbowStaggerMs * k + RainbowHoldMs)
  }

  const RainbowStaggerMs := 100
  const RainbowHoldMs := 2000
  const FireworksCount := 5
  const FireworksStaggerMs := 200

  /**
   * `triggerRainbowMode` over `boxCount` highlighted elements: box k lights
   * up at 100·k ms and goes dark 2000 ms later; five bursts follow at
   * 0, 200, ..., 800 ms at random points of the viewport.
   */
  method TriggerRainbowMode(boxCount: nat, width: nat, height: nat, xRolls: seq<real>, yRolls: seq<real>)
    returns (plan: seq<RainbowTimer>)
    requires |xRolls| == FireworksCount && |yRolls| == FireworksCount
    requires forall m :: 0 <= m < FireworksCount ==> IsRoll(xRolls[m]) && IsRoll(yRolls[m])
    ensures |plan| == 2 * boxCount + FireworksCount
    ensures forall k :: 0 <= k < boxCount ==> HighlightsBox(plan, k)
    ensures forall i :: 2 * boxCount <= i < |plan| ==>
      && IsFireworks(plan[i], i - 2 * boxCount, width, height)
      && plan[i].x == Scale(xRolls[i - 2 * boxCount], width) && plan[i].y == Scale(yRolls[i - 2 * boxCount], height)
  {
    var boxes := ScheduleHighlights(boxCount);
    var fireworks := ScheduleFireworks(width, height, xRolls, yRolls);
    plan := boxes + fireworks;
    assert forall k :: 0 <= k < boxCount ==> HighlightsBox(boxes, k) ==> HighlightsBox(plan, k);
    assert forall i :: 2 * boxCount <= i < |plan| ==> plan[i] == fireworks[i - 2 * boxCount];
  }

  /** The `forEach` over the highlighted elements: one timeout to light each box and one to darken it. */
  method ScheduleHighlights(boxCount: nat) returns (boxes: seq<RainbowTimer>)
    ensures |boxes| == 2 * boxCount
    ensures forall k :: 0 <= k < boxCount ==> HighlightsBox(boxes, k)
  {
    boxes := [];
    for k := 0 to boxCount
      invariant |boxes| == 2 * k
      invariant forall j :: 0 <= j < k ==> HighlightsBox(boxes, j)
    {
      var at := k * RainbowStaggerMs;
      ghost var before := boxes;
      boxes := boxes + [Highlight(k, at), Unhighlight(k, at + RainbowHoldMs)];
      forall j | 0 <= j <= k
        ensures HighlightsBox(boxes, j)
      {
        if j < k {
          assert HighlightsBox(before, j);
        }
      }
    }
  }

  /** The fireworks loop: five bursts, 200 ms apart, each at a random point of the viewport. */
  method ScheduleFireworks(width: nat, height: nat, xRolls: seq<real>, yRolls: seq<real>)
    returns (fireworks: seq<RainbowTimer>)
    requires |xRolls| == FireworksCount && |yRolls| == FireworksCount
    requires forall m :: 0 <= m < FireworksCount ==> IsRoll(xRolls[m]) && IsRoll(yRolls[m])
    ensures |fireworks| == FireworksCount
    ensures forall m :: 0 <= m < FireworksCount ==>
      && IsFireworks(fireworks[m], m, width, height)
      && fireworks[m].x == Scale(xRolls[m], width) && fireworks[m].y == Scale(yRolls[m], height)
  {
    fireworks := [];
    for m := 0 to FireworksCount
      invariant |fireworks| == m
      invariant forall j :: 0 <= j < m ==>
        && IsFireworks(fireworks[j], j, width, height)
        && fireworks[j].x == Scale(xRolls[j], width) && fireworks[j].y == Scale(yRolls[j], height)
    {
      var x := Scale(xRolls[m], width);
      var y := Scale(yRolls[m], height);
      fireworks := fireworks + [Fireworks(m * FireworksStaggerMs, x, y)];
    }
  }
}
