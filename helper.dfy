/** `validate_mac_address`: the input is lower-cased and then matched against
        [0-9a-f]{2}([-:]?)[0-9a-f]{2}(\1[0-9a-f]{2}){4}$
    with `re.match`, which anchors the match at the start. `$` matches at the very
    end or just before a final newline. The model follows the regex step by step
    (`Matches`, with the backtracking of the optional group written out) and states
    the accepted language declaratively (`MacSpec`); `ValidateMacMatchesSpec` proves
    that the two agree on every string. */
module Helper {

  /** Lower-casing of one character, for the ASCII letters. */
  function LowerChar(c: char): (d: char)
    ensures 'A' <= c <= 'Z' ==> d as int == c as int + 32
    ensures !('A' <= c <= 'Z') ==> d == c
  {
    if 'A' <= c <= 'Z' then (c as int + 32) as char else c
  }

  /** `str.lower()`, character by character. */
  function Lower(s: string): (t: string)
    ensures |t| == |s|
    ensures forall i :: 0 <= i < |s| ==> t[i] == LowerChar(s[i])
  {
    seq(|s|, i requires 0 <= i < |s| => LowerChar(s[i]))
  }

  /** The character class `[0-9a-f]`. */
  predicate IsHex(c: char)
  {
    '0' <= c <= '9' || 'a' <= c <= 'f'
  }

  /** `[0-9a-f]{2}` at position `i` of `t`. */
  predicate HexPairAt(t: string, i: nat)
  {
    i + 2 <= |t| && IsHex(t[i]) && IsHex(t[i + 1])
  }

  /** `$` at position `i`: the end of `t`, or the position of a final newline. */
  predicate EndAt(t: string, i: nat)
  {
    i == |t| || (i + 1 == |t| && t[i] == '\n')
  }

  /** `(\1[0-9a-f]{2}){k}$` at position `i`, where the group captured `sep`. */
  predicate GroupsThenEnd(t: string, i: nat, sep: string, k: nat)
    decreases k
  {
    if k == 0 then EndAt(t, i)
    else
      && i + |sep| <= |t|
      && t[i..i + |sep|] == sep
      && HexPairAt(t, i + |sep|)
      && GroupsThenEnd(t, i + |sep| + 2, sep, k - 1)
  }

  /** The whole pattern matched from the start of `t`. After the first pair the
      group `([-:]?)` first takes one separator; if the rest then fails, it
      backtracks to the empty capture. */
  predicate Matches(t: string)
  {
    && HexPairAt(t, 0)
    && (|| (|t| > 2 && (t[2] == '-' || t[2] == ':') && HexPairAt(t, 3) && GroupsThenEnd(t, 5, [t[2]], 4))
        || (HexPairAt(t, 2) && GroupsThenEnd(t, 4, "", 4)))
  }

  /** `validate_mac_address(address)`. */
  function ValidateMacAddress(address: string): (ok: bool)
    ensures ok ==> AcceptedLength(address)
  {
    var t := Lower(address);
    Matches(t)
  }

  /** 12 or 17 characters, not counting one final newline. */
  predicate AcceptedLength(address: string)
  {
    || |address| == 12 || |address| == 17
    || ((|address| == 13 || |address| == 18) && address[|address| - 1] == '\n')
  }

  // ---------------------------------------------------------------------------
  // The accepted language, stated without the regex

  /** The string that `$` leaves to the pattern: `t` without one final newline. */
  function Body(t: string): (b: string)
    ensures |b| <= |t| && b == t[..|b|]
    ensures |t| > 0 && t[|t| - 1] == '\n' ==> |b| == |t| - 1
    ensures !(|t| > 0 && t[|t| - 1] == '\n') ==> b == t
  {
    if |t| > 0 && t[|t| - 1] == '\n' then t[..|t| - 1] else t
  }

  /** Six two-digit groups with no separator. */
  ghost predicate Plain(b: string)
  {
    |b| == 12 && forall i :: 0 <= i < 12 ==> IsHex(b[i])
  }

  /** Position `i` of a separated address: a separator equal to the one at 2, or a digit. */
  predicate SepPos(b: string, i: nat)
    requires 2 < |b| && i < |b|
  {
    if i % 3 == 2 then b[i] == b[2] else IsHex(b[i])
  }

  /** Six two-digit groups, each pair separated by the same ':' or '-'. */
  ghost predicate Separated(b: string)
  {
    && |b| == 17
    && (b[2] == ':' || b[2] == '-')
    && forall i :: 0 <= i < 17 ==> SepPos(b, i)
  }

  /** What `validate_mac_address` is meant to accept, after lower-casing. */
  ghost predicate MacSpec(address: string)
  {
    var b := Body(Lower(address));
    Plain(b) || Separated(b)
  }

  // ---------------------------------------------------------------------------
  // Equivalence of the step-by-step matcher and the declarative language

  lemma {:induction false} PlainGroupsSound(t: string, i: nat, k: nat)
    requires GroupsThenEnd(t, i, "", k)
    ensures i + 2 * k <= |t| && EndAt(t, i + 2 * k)
    ensures forall j :: i <= j < i + 2 * k ==> IsHex(t[j])
    decreases k
  {
    if k > 0 {
      PlainGroupsSound(t, i + 2, k - 1);
    }
  }

  lemma {:induction false} PlainGroupsComplete(t: string, i: nat, k: nat)
    requires i + 2 * k <= |t| && EndAt(t, i + 2 * k)
    requires forall j :: i <= j < i + 2 * k ==> IsHex(t[j])
    ensures GroupsThenEnd(t, i, "", k)
    decreases k
  {
    if k > 0 {
      PlainGroupsComplete(t, i + 2, k - 1);
      assert t[i..i] == "";
    }
  }

  /** Position `j` of `(\1[0-9a-f]{2})*` starting at `i`, with `\1` the one character `c`. */
  predicate SlotOk(t: string, i: nat, c: char, j: nat)
    requires i + j < |t|
  {
    if j % 3 == 0 then t[i + j] == c else IsHex(t[i + j])
  }

  ghost predicate SeparatedRun(t: string, i: nat, c: char, k: nat)
  {
    && i + 3 * k <= |t|
    && (forall j :: 0 <= j < 3 * k ==> SlotOk(t, i, c, j))
    && EndAt(t, i + 3 * k)
  }

  lemma SlotShift(t: string, i: nat, c: char, j: nat)
    requires i + 3 + j < |t|
    ensures SlotOk(t, i + 3, c, j) == SlotOk(t, i, c, j + 3)
  {
    assert (j + 3) % 3 == j % 3;
  }

  lemma {:induction false} SeparatedGroupsSound(t: string, i: nat, c: char, k: nat)
    requires GroupsThenEnd(t, i, [c], k)
    ensures SeparatedRun(t, i, c, k)
    decreases k
  {
    if k > 0 {
      SeparatedGroupsSound(t, i + 3, c, k - 1);
      assert t[i..i + 1] == [c];
      assert t[i] == t[i..i + 1][0] == c;
      assert HexPairAt(t, i + 1);
      assert SlotOk(t, i, c, 0) && SlotOk(t, i, c, 1) && SlotOk(t, i, c, 2);
      forall j | 0 <= j < 3 * k ensures SlotOk(t, i, c, j)
      {
        if j >= 3 {
          SlotShift(t, i, c, j - 3);
        }
      }
    }
  }

  lemma {:induction false} SeparatedGroupsComplete(t: string, i: nat, c: char, k: nat)
    requires SeparatedRun(t, i, c, k)
    ensures GroupsThenEnd(t, i, [c], k)
    decreases k
  {
    if k > 0 {
      assert SlotOk(t, i, c, 0) && SlotOk(t, i, c, 1) && SlotOk(t, i, c, 2);
      assert t[i..i + 1] == [c];
      var next := i + 3;
      forall j | 0 <= j < 3 * (k - 1) ensures SlotOk(t, next, c, j)
      {
        SlotShift(t, i, c, j);
      }
      SeparatedGroupsComplete(t, i + 3, c, k - 1);
    }
  }

  /** A character the pattern accepts inside the body is never the final newline. */
  lemma TrailingCharNotNewline(t: string, n: nat)
    requires 0 < n <= |t|
    requires IsHex(t[n - 1])
    requires EndAt(t, n)
    ensures Body(t) == t[..n]
  {
  }

  /** Past the first pair, the separated layout and the regex's slots are the same. */
  lemma SepPosSlot(t: string, j: nat)
    requires 17 <= |t| && j < 12
    ensures SepPos(t[..17], 5 + j) == SlotOk(t, 5, t[2], j)
  {
    assert (5 + j) % 3 == 2 <==> j % 3 == 0;
  }

  lemma SeparatedSound(t: string)
    requires |t| > 2 && (t[2] == '-' || t[2] == ':')
    requires HexPairAt(t, 0) && HexPairAt(t, 3) && SeparatedRun(t, 5, t[2], 4)
    ensures Separated(Body(t))
  {
    assert SlotOk(t, 5, t[2], 11);
    TrailingCharNotNewline(t, 17);
    var b := Body(t);
    assert SepPos(b, 0) && SepPos(b, 1) && SepPos(b, 2) && SepPos(b, 3) && SepPos(b, 4);
    forall i | 5 <= i < 17 ensures SepPos(b, i)
    {
      SepPosSlot(t, i - 5);
    }
  }

  lemma SeparatedComplete(t: string)
    requires Separated(Body(t))
    ensures |t| > 2 && (t[2] == '-' || t[2] == ':')
    ensures HexPairAt(t, 0) && HexPairAt(t, 3) && SeparatedRun(t, 5, t[2], 4)
  {
    var b := Body(t);
    assert SepPos(b, 16);
    assert b == t[..17];
    assert EndAt(t, 17);
    forall j | 0 <= j < 12 ensures SlotOk(t, 5, t[2], j)
    {
      assert SepPos(b, 5 + j);
      SepPosSlot(t, j);
    }
    assert SepPos(b, 0) && SepPos(b, 1) && SepPos(b, 3) && SepPos(b, 4);
  }

  lemma PlainSound(t: string)
    requires HexPairAt(t, 0) && HexPairAt(t, 2) && GroupsThenEnd(t, 4, "", 4)
    ensures Plain(Body(t))
  {
    PlainGroupsSound(t, 4, 4);
    assert IsHex(t[11]);
    TrailingCharNotNewline(t, 12);
  }

  lemma PlainComplete(t: string)
    requires Plain(Body(t))
    ensures HexPairAt(t, 0) && HexPairAt(t, 2) && GroupsThenEnd(t, 4, "", 4)
  {
    var b := Body(t);
    assert IsHex(b[11]);
    assert b == t[..12];
    assert EndAt(t, 12);
    forall j | 4 <= j < 12 ensures IsHex(t[j]) { assert IsHex(b[j]); }
    assert IsHex(b[0]) && IsHex(b[1]) && IsHex(b[2]) && IsHex(b[3]);
    PlainGroupsComplete(t, 4, 4);
  }

  /** The regex and the declarative language agree on every input. */
  lemma ValidateMacMatchesSpec(address: string)
    ensures ValidateMacAddress(address) <==> MacSpec(address)
  {
    var t := Lower(address);
    if ValidateMacAddress(address) {
      if |t| > 2 && (t[2] == '-' || t[2] == ':') && HexPairAt(t, 3) && GroupsThenEnd(t, 5, [t[2]], 4) {
        SeparatedGroupsSound(t, 5, t[2], 4);
        SeparatedSound(t);
      } else {
        PlainSound(t);
      }
    }
    if MacSpec(address) {
      if Separated(Body(t)) {
        SeparatedComplete(t);
        SeparatedGroupsComplete(t, 5, t[2], 4);
      } else {
        PlainComplete(t);
      }
    }
  }

  // ---------------------------------------------------------------------------
  // Consequences

  /** Upper and lower case are accepted alike. */
  lemma CaseInsensitive(address: string)
    ensures ValidateMacAddress(address) == ValidateMacAddress(Lower(address))
  {
    assert Lower(Lower(address)) == Lower(address);
  }

  /** Two different separators are never accepted together. */
  lemma MixedSeparatorsRejected(address: string, i: nat, j: nat)
    requires i < j < |address| && i % 3 == 2 && j % 3 == 2
    requires Lower(address)[i] in {':', '-'} && Lower(address)[j] in {':', '-'}
    requires Lower(address)[i] != Lower(address)[j]
    ensures !ValidateMacAddress(address)
  {
    ValidateMacMatchesSpec(address);
    var b := Body(Lower(address));
    assert j < |b| && b[i] == Lower(address)[i] && b[j] == Lower(address)[j];
    assert !IsHex(b[i]);
    assert 2 < |b| ==> (SepPos(b, i) <==> b[i] == b[2]) && (SepPos(b, j) <==> b[j] == b[2]);
  }

  /** Characters before the address are rejected: the match is anchored at the start. */
  lemma LeadingCharacterRejected(c: char, address: string)
    requires !IsHex(LowerChar(c))
    ensures !ValidateMacAddress([c] + address)
  {
    assert Lower([c] + address)[0] == LowerChar(c);
  }

  lemma ColonExampleAccepted()
    ensures ValidateMacAddress("00:1A:2b:3C:4d:5E")
  {
    var t := Lower("00:1A:2b:3C:4d:5E");
    assert t == "00:1a:2b:3c:4d:5e";
    assert GroupsThenEnd(t, 17, [':'], 0);
    assert t[14..15] == [':'] && GroupsThenEnd(t, 14, [':'], 1);
    assert t[11..12] == [':'] && GroupsThenEnd(t, 11, [':'], 2);
    assert t[8..9] == [':'] && GroupsThenEnd(t, 8, [':'], 3);
    assert t[5..6] == [':'] && GroupsThenEnd(t, 5, [t[2]], 4);
  }

  lemma PlainExampleAccepted()
    ensures ValidateMacAddress("001A2B3C4D5E")
    ensures ValidateMacAddress("001A2B3C4D5E\n")
  {
    ValidateMacMatchesSpec("001A2B3C4D5E");
    ValidateMacMatchesSpec("001A2B3C4D5E\n");
    assert Body(Lower("001A2B3C4D5E")) == "001a2b3c4d5e";
    assert Body(Lower("001A2B3C4D5E\n")) == "001a2b3c4d5e";
  }

  lemma MixedExampleRejected()
    ensures !ValidateMacAddress("00:1a-2b:3c:4d:5e")
  {
    MixedSeparatorsRejected("00:1a-2b:3c:4d:5e", 2, 5);
  }

  lemma TrailingCharacterRejected()
    ensures !ValidateMacAddress("00:1a:2b:3c:4d:5e ")
    ensures !ValidateMacAddress("001a2b3c4d5e\n\n")
  {
  }
}
