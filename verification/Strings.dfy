/** Length-carrying strings and the sanitizer (src/components/rpchat_string.c). */
module Strings {

  type Byte = b: int | 0 <= b < 256
  type Bytes = seq<Byte>

  const MAX_STR_LENGTH := 4095      // RPCHAT_MAX_STR_LENGTH
  const STR_CAPACITY := 4096        // contents[4095] and the padding byte after it
  const STR_SIZE := 4098            // sizeof(rpchat_string_t): length, contents, padding

  function Min(a: nat, b: nat): nat { if a < b then a else b }

  /** The filter: printable ASCII, and with ctrl also tab, newline and space. */
  predicate Accepts(b: Byte, ctrl: bool) {
    33 <= b <= 126 || (ctrl && (b == 9 || b == 10 || b == 32))
  }

  function Keep(s: Bytes, ctrl: bool): (r: Bytes)
    ensures |r| <= |s|
  {
    if s == [] then []
    else
      var last := s[|s| - 1];
      Keep(s[..|s| - 1], ctrl) + (if Accepts(last, ctrl) then [last] else [])
  }

  function Clamped(s: Bytes): Bytes { s[..Min(|s|, MAX_STR_LENGTH)] }

  /** The sanitized form of a string: what survives of its first 4095 bytes, and a
      terminator unless nothing survives. */
  function Sanitized(s: Bytes, ctrl: bool): (r: Bytes)
    ensures |r| <= STR_CAPACITY
  {
    var kept := Keep(Clamped(s), ctrl);
    if kept == [] then [] else kept + [0]
  }

  // ---- the loop --------------------------------------------------------------------------------

  /** rpchat_string_t: a length, which may exceed what the buffer holds, and the buffer. */
  class StringBuf {
    var len: nat
    const contents: array<Byte>

    constructor ()
      ensures len == 0 && contents.Length == STR_CAPACITY && fresh(contents)
    {
      len := 0;
      contents := new Byte[STR_CAPACITY](_ => 0);
    }

    ghost predicate Valid()
      reads this
    {
      contents.Length == STR_CAPACITY
    }

    ghost function Text(): Bytes
      requires Valid()
      reads this, contents
    {
      contents[..Min(len, STR_CAPACITY)]
    }
  }

  /** The loop of rpchat_string_sanitize: acceptable bytes go to the next output index. */
  method FilterInto(input: StringBuf, output: StringBuf, ctrl: bool) returns (out: nat)
    requires input.Valid() && output.Valid() && input.contents != output.contents
    requires input.len <= MAX_STR_LENGTH
    modifies output.contents
    ensures out <= input.len
    ensures output.contents[..out] == Keep(input.contents[..input.len], ctrl)
  {
    ghost var text := input.contents[..input.len];
    out := 0;
    var i: nat := 0;
    while i < input.len
      invariant out <= i <= input.len
      invariant output.contents[..out] == Keep(text[..i], ctrl)
    {
      var c := input.contents[i];
      assert text[..i + 1][..i] == text[..i];
      if (33 <= c && c <= 126) || (ctrl && (c == 9 || c == 10 || c == 32)) {
        output.contents[out] := c;
        assert output.contents[..out + 1] == Keep(text[..i], ctrl) + [c];
        out := out + 1;
      }
      i := i + 1;
    }
    assert text[..i] == text;
  }

  /** rpchat_string_sanitize: filters into the output buffer, terminates it, and clamps the
      input's length in place. */
  method Sanitize(input: StringBuf, output: StringBuf, ctrl: bool) returns (success: bool)
    requires input.Valid() && output.Valid()
    requires input != output && input.contents != output.contents
    modifies input`len, output`len, output.contents
    ensures input.len == Min(old(input.len), MAX_STR_LENGTH)
    ensures output.Text() == Sanitized(old(input.Text()), ctrl) && output.len <= STR_CAPACITY
    ensures success <==> Sanitized(old(input.Text()), ctrl) != []
  {
    ghost var before := input.Text();
    input.len := if input.len < MAX_STR_LENGTH then input.len else MAX_STR_LENGTH;
    output.len := 0;
    assert input.contents[..input.len] == Clamped(before);
    var out := FilterInto(input, output, ctrl);
    ghost var kept := output.contents[..out];
    KeepSound(Clamped(before), ctrl);
    if out > 0 && output.contents[out - 1] != 0 {
      assert kept[out - 1] == output.contents[out - 1];
      output.contents[out] := 0;
      out := out + 1;
      assert output.contents[..out] == kept + [0];
    }
    output.len := out;
    success := output.len > 0;
  }

  // ---- what the filter is ----------------------------------------------------------------------

  /** Keep selects exactly the accepted positions, in order. */
  lemma {:induction false} KeepSelects(s: Bytes, ctrl: bool) returns (at: seq<nat>)
    ensures |at| == |Keep(s, ctrl)|
    ensures forall k :: 0 <= k < |at| ==> at[k] < |s| && s[at[k]] == Keep(s, ctrl)[k]
    ensures forall j, k :: 0 <= j < k < |at| ==> at[j] < at[k]
    ensures forall i :: 0 <= i < |s| ==> (Accepts(s[i], ctrl) <==> i in at)
  {
    if s == [] {
      at := [];
    } else {
      var n := |s| - 1;
      at := KeepSelects(s[..n], ctrl);
      if Accepts(s[n], ctrl) {
        at := at + [n];
      }
    }
  }

  /** The accepted bytes are the visible ASCII characters, and in the permissive mode blank, tab and
      newline as well; the terminator never is. */
  lemma AcceptsVisible(b: Byte)
    ensures Accepts(b, false) <==> '!' as int <= b <= '~' as int
    ensures Accepts(b, true) <==> Accepts(b, false) || b == ' ' as int || b == '\t' as int || b == '\n' as int
    ensures !Accepts(0, true) && MAX_STR_LENGTH == 4095
  {
  }

  lemma {:induction false} KeepSound(s: Bytes, ctrl: bool)
    ensures forall k :: 0 <= k < |Keep(s, ctrl)| ==> Accepts(Keep(s, ctrl)[k], ctrl)
  {
    if s == [] {
    } else {
      KeepSound(s[..|s| - 1], ctrl);
    }
  }

  /** A string of accepted bytes is left alone, and so is the terminator dropped from it. */
  lemma {:induction false} KeepAll(s: Bytes, ctrl: bool)
    requires forall k :: 0 <= k < |s| ==> Accepts(s[k], ctrl)
    ensures Keep(s, ctrl) == s
  {
    if s == [] {
    } else {
      KeepAll(s[..|s| - 1], ctrl);
    }
  }

  // ---- passes collapse -------------------------------------------------------------------------

  /** What a pass sees of a kept string followed by its terminator is the kept string. */
  lemma KeepTerminated(kept: Bytes, ctrl: bool)
    requires |kept| <= MAX_STR_LENGTH
    requires forall k :: 0 <= k < |kept| ==> Accepts(kept[k], ctrl)
    ensures Keep(Clamped(kept + [0]), ctrl) == kept
  {
    KeepAll(kept, ctrl);
    var c := Clamped(kept + [0]);
    if |kept| < MAX_STR_LENGTH {
      assert c == kept + [0];
      assert c[..|c| - 1] == kept;
    } else {
      assert c == kept;
    }
  }

  /** A second pass, in the same mode or in the permissive one, changes nothing. */
  lemma SanitizedTwice(s: Bytes, ctrl: bool, again: bool)
    requires ctrl ==> again
    ensures Sanitized(Sanitized(s, ctrl), again) == Sanitized(s, ctrl)
  {
    hide Clamped;
    var kept := Keep(Clamped(s), ctrl);
    assert |Clamped(s)| <= MAX_STR_LENGTH by { ClampedLength(s); }
    KeepSound(Clamped(s), ctrl);
    if kept == [] {
      assert Keep(Clamped([]), again) == [] by { ClampedEmpty(); }
    } else {
      KeepTerminated(kept, again);
    }
  }

  lemma ClampedLength(s: Bytes)
    ensures |Clamped(s)| <= MAX_STR_LENGTH
  {
  }

  lemma ClampedEmpty()
    ensures Clamped([]) == []
  {
  }

  /** The three passes a SEND goes through - on receipt, in the broadcast and in the frame
      builder - equal one. */
  lemma ThreePasses(s: Bytes)
    ensures Sanitized(Sanitized(Sanitized(s, true), true), true) == Sanitized(s, true)
  {
    SanitizedTwice(s, true, true);
  }

  /** A sanitized string holds a terminator at its end and only there. */
  lemma SanitizedShape(s: Bytes, ctrl: bool)
    ensures Sanitized(s, ctrl) != [] ==>
              var r := Sanitized(s, ctrl);
              r[|r| - 1] == 0 && forall k :: 0 <= k < |r| - 1 ==> r[k] != 0 && Accepts(r[k], ctrl)
  {
    KeepSound(Clamped(s), ctrl);
  }

  lemma KeepEmpty(s: Bytes, ctrl: bool)
    ensures Keep(s, ctrl) == [] <==> forall i :: 0 <= i < |s| ==> !Accepts(s[i], ctrl)
  {
    var at := KeepSelects(s, ctrl);
    if Keep(s, ctrl) != [] {
      assert at[0] in at && Accepts(s[at[0]], ctrl);
    }
  }

  /** A string sanitizes to nothing exactly when no byte of its first 4095 is acceptable. */
  lemma SanitizedEmpty(s: Bytes, ctrl: bool)
    ensures Sanitized(s, ctrl) == [] <==>
              forall i :: 0 <= i < Min(|s|, MAX_STR_LENGTH) ==> !Accepts(s[i], ctrl)
  {
    KeepEmpty(Clamped(s), ctrl);
    assert forall i :: 0 <= i < |Clamped(s)| ==> Clamped(s)[i] == s[i];
  }

  /** The bound of 4096 bytes is reached: by any 4095 acceptable bytes. */
  lemma SanitizedTight(s: Bytes, ctrl: bool)
    requires |s| == MAX_STR_LENGTH && forall k :: 0 <= k < |s| ==> Accepts(s[k], ctrl)
    ensures |Sanitized(s, ctrl)| == STR_CAPACITY
  {
    KeepAll(s, ctrl);
    assert Clamped(s) == s;
  }
}
