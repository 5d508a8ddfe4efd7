/** The one display-name rule: control and bidirectional characters out, whitespace
    trimmed, one to sixty-four code points left. Text is UTF-16 code units. */
module LabelText {
  import opened Seqs

  type CodeUnit = n: int | 0 <= n < 0x1_0000
  type Text = seq<CodeUnit>

  const ONBOARDING_LABEL_MAX_LENGTH: nat := 64

  /** The C0 and C1 ranges with DEL, and the bidirectional controls and isolates. */
  predicate StrippedCharacter(c: CodeUnit) {
    || c <= 0x1f || 0x7f <= c <= 0x9f
    || c == 0x200e || c == 0x200f
    || 0x202a <= c <= 0x202e || 0x2066 <= c <= 0x2069
  }

  /** What `String.prototype.trim` takes off an end. */
  predicate WhiteSpace(c: CodeUnit) {
    || 0x9 <= c <= 0xd || c == 0x20 || c == 0xa0 || c == 0x1680 || 0x2000 <= c <= 0x200a
    || c == 0x2028 || c == 0x2029 || c == 0x202f || c == 0x205f || c == 0x3000 || c == 0xfeff
  }

  predicate HighSurrogate(c: CodeUnit) { 0xd800 <= c <= 0xdbff }

  predicate LowSurrogate(c: CodeUnit) { 0xdc00 <= c <= 0xdfff }

  function Stripped(t: Text): Text {
    if t == [] then []
    else (if StrippedCharacter(t[0]) then [] else [t[0]]) + Stripped(t[1..])
  }

  function TrimStart(t: Text): Text {
    if t != [] && WhiteSpace(t[0]) then TrimStart(t[1..]) else t
  }

  function TrimEnd(t: Text): Text {
    if t != [] && WhiteSpace(t[|t| - 1]) then TrimEnd(t[..|t| - 1]) else t
  }

  function StrippedDisplayText(value: Text): Text {
    TrimEnd(TrimStart(Stripped(value)))
  }

  /** `[...t].length`: a surrogate pair is one code point, a lone surrogate too. */
  function CodePoints(t: Text): nat {
    if t == [] then 0
    else if 2 <= |t| && HighSurrogate(t[0]) && LowSurrogate(t[1]) then 1 + CodePoints(t[2..])
    else 1 + CodePoints(t[1..])
  }

  /** One unit more is one code point more, but for the low half of a pair. */
  lemma {:induction false} CodePointsPush(t: Text, c: CodeUnit)
    ensures CodePoints(t + [c]) ==
            CodePoints(t) + if t != [] && HighSurrogate(t[|t| - 1]) && LowSurrogate(c) then 0 else 1
  {
    if 2 <= |t| && HighSurrogate(t[0]) && LowSurrogate(t[1]) {
      CodePointsPush(t[2..], c);
      assert (t + [c])[2..] == t[2..] + [c];
    } else if t != [] {
      CodePointsPush(t[1..], c);
      assert (t + [c])[1..] == t[1..] + [c];
    }
  }

  function NormalizeDisplayName(value: Text): Option<Text> {
    var stripped := StrippedDisplayText(value);
    var length := CodePoints(stripped);
    if length == 0 || length > ONBOARDING_LABEL_MAX_LENGTH then None else Some(stripped)
  }

  /** Nothing the rule takes out, and no whitespace at either end. */
  predicate Clean(t: Text) {
    && (forall i :: 0 <= i < |t| ==> !StrippedCharacter(t[i]))
    && (t != [] ==> !WhiteSpace(t[0]) && !WhiteSpace(t[|t| - 1]))
  }

  /** `kept` is what is left of `t` when every stripped character is taken out. */
  ghost predicate KeepsExactly(t: Text, kept: Text, at: seq<nat>) {
    && Keeps(t, kept, at)
    && forall n: nat :: n in at <==> n < |t| && !StrippedCharacter(t[n])
  }

  lemma {:induction false} StrippedKeepsExactly(t: Text) returns (at: seq<nat>)
    ensures KeepsExactly(t, Stripped(t), at)
  {
    if t == [] {
      at := [];
    } else {
      var rest := StrippedKeepsExactly(t[1..]);
      var keep := !StrippedCharacter(t[0]);
      at := Onward(keep, rest);
      assert t == [t[0]] + t[1..];
      KeepsOnward(t[0], t[1..], Stripped(t[1..]), keep, rest);
      forall n: nat ensures n in at <==> n < |t| && !StrippedCharacter(t[n]) { OnwardMember(keep, rest, n); }
    }
  }

  lemma {:induction false} StrippedHasNone(t: Text)
    ensures forall i :: 0 <= i < |Stripped(t)| ==> !StrippedCharacter(Stripped(t)[i])
  {
    if t != [] { StrippedHasNone(t[1..]); }
  }

  lemma {:induction false} StrippedIsIdle(t: Text)
    requires forall i :: 0 <= i < |t| ==> !StrippedCharacter(t[i])
    ensures Stripped(t) == t
  {
    if t != [] { StrippedIsIdle(t[1..]); }
  }

  lemma {:induction false} TrimStartSuffix(t: Text)
    ensures exists k :: 0 <= k <= |t| && TrimStart(t) == t[k..]
    ensures TrimStart(t) != [] ==> !WhiteSpace(TrimStart(t)[0])
  {
    if t != [] && WhiteSpace(t[0]) {
      TrimStartSuffix(t[1..]);
      var k :| 0 <= k <= |t| - 1 && TrimStart(t[1..]) == t[1..][k..];
      assert t[1..][k..] == t[k + 1..];
    } else {
      assert t == t[0..];
    }
  }

  lemma {:induction false} TrimEndPrefix(t: Text)
    ensures TrimEnd(t) <= t
    ensures TrimEnd(t) != [] ==> !WhiteSpace(TrimEnd(t)[|TrimEnd(t)| - 1])
  {
    if t != [] && WhiteSpace(t[|t| - 1]) { TrimEndPrefix(t[..|t| - 1]); }
  }

  /** What is left is clean. */
  lemma DisplayTextIsClean(value: Text)
    ensures Clean(StrippedDisplayText(value))
  {
    StrippedHasNone(value);
    TrimStartSuffix(Stripped(value));
    TrimEndPrefix(TrimStart(Stripped(value)));
  }

  lemma CleanIsUntouched(t: Text)
    requires Clean(t)
    ensures StrippedDisplayText(t) == t
  {
    StrippedIsIdle(t);
  }

  /** The text between its outer whitespace. */
  ghost predicate Trimmed(t: Text, middle: Text) {
    exists i, j :: 0 <= i <= j <= |t| && middle == t[i..j]
      && (forall k :: 0 <= k < i ==> WhiteSpace(t[k])) && (forall k :: j <= k < |t| ==> WhiteSpace(t[k]))
      && (middle != [] ==> !WhiteSpace(middle[0]) && !WhiteSpace(middle[|middle| - 1]))
  }

  lemma {:induction false} TrimStartDrops(t: Text) returns (i: nat)
    ensures i <= |t| && TrimStart(t) == t[i..] && forall k :: 0 <= k < i ==> WhiteSpace(t[k])
  {
    if t != [] && WhiteSpace(t[0]) {
      i := TrimStartDrops(t[1..]);
      i := i + 1;
      assert forall k :: 0 < k < i ==> t[k] == t[1..][k - 1];
    } else {
      i := 0;
    }
  }

  lemma {:induction false} TrimEndDrops(t: Text) returns (j: nat)
    ensures j <= |t| && TrimEnd(t) == t[..j] && forall k :: j <= k < |t| ==> WhiteSpace(t[k])
  {
    if t != [] && WhiteSpace(t[|t| - 1]) {
      j := TrimEndDrops(t[..|t| - 1]);
      assert forall k :: j <= k < |t| - 1 ==> t[k] == t[..|t| - 1][k];
    } else {
      j := |t|;
    }
  }

  lemma TrimsOuter(t: Text)
    ensures Trimmed(t, TrimEnd(TrimStart(t)))
  {
    var i := TrimStartDrops(t);
    var j := TrimEndDrops(t[i..]);
    TrimStartSuffix(t);
    TrimEndPrefix(t[i..]);
    assert t[i..][..j] == t[i..i + j];
    assert forall k :: i + j <= k < |t| ==> t[k] == t[i..][k - i];
  }

  /** What the rule makes of any name: its characters but the stripped ones, in
      order, less the whitespace around them -- refused exactly when that is not of
      1 to 64 code points. */
  lemma NormalizeKeeps(value: Text) returns (kept: Text, at: seq<nat>, middle: Text)
    ensures KeepsExactly(value, kept, at) && Trimmed(kept, middle)
    ensures NormalizeDisplayName(value) ==
            if 1 <= CodePoints(middle) <= ONBOARDING_LABEL_MAX_LENGTH then Some(middle) else None
  {
    at := StrippedKeepsExactly(value);
    kept := Stripped(value);
    TrimsOuter(kept);
    middle := TrimEnd(TrimStart(kept));
  }

  /** A normalized name is one the rule leaves as it is: no producer can write a
      name a reader changes or refuses. */
  lemma NormalizeIsIdempotent(value: Text)
    requires NormalizeDisplayName(value).Some?
    ensures NormalizeDisplayName(NormalizeDisplayName(value).value) == NormalizeDisplayName(value)
  {
    DisplayTextIsClean(value);
    CleanIsUntouched(StrippedDisplayText(value));
  }

  /** The names the rule leaves alone are exactly the clean ones of admissible
      length. */
  lemma FixpointsAreCleanNames(t: Text)
    ensures NormalizeDisplayName(t) == Some(t) <==> Clean(t) && 1 <= CodePoints(t) <= ONBOARDING_LABEL_MAX_LENGTH
  {
    DisplayTextIsClean(t);
    if Clean(t) { CleanIsUntouched(t); }
  }
}
