/**
 Splitting a hostname into its label and its member digit.

 A hostname such as `web7` or `abc32xyz1` is read as a label (its letters, in
 order) and a number (its digits, in order). Only the last digit of the number
 is kept: it is the host's member index within its family, and a hostname
 without any digit is member 0.

 Letters and digits are the ASCII ones; see the README for what that leaves out.
 */
module Decomposition {

  /** A member index: the value of one decimal digit. */
  type Digit = d: int | 0 <= d < 10

  /** The two parts of a hostname that the colour depends on. */
  datatype Host = Host(letters: string, member: Digit)

  predicate IsLetter(c: char) {
    ('a' <= c <= 'z') || ('A' <= c <= 'Z')
  }

  predicate IsDigit(c: char) {
    '0' <= c <= '9'
  }

  /** The characters of `s` that satisfy `p`, in their original order. */
  function Filter(p: char -> bool, s: string): (r: string)
    ensures |r| <= |s|
    ensures forall i :: 0 <= i < |r| ==> p(r[i])
    ensures (forall i :: 0 <= i < |s| ==> p(s[i])) ==> r == s
    ensures (forall i :: 0 <= i < |s| ==> !p(s[i])) <==> r == []
    decreases |s|
  {
    if |s| == 0 then []
    else
      var init := Filter(p, s[..|s| - 1]);
      var last := s[|s| - 1];
      assert s == s[..|s| - 1] + [last];
      if p(last) then init + [last] else init
  }

  /** Filtering commutes with concatenation: the kept characters of `s + t`
      are those of `s` followed by those of `t`. */
  lemma {:induction false} FilterConcat(p: char -> bool, s: string, t: string)
    ensures Filter(p, s + t) == Filter(p, s) + Filter(p, t)
    decreases |t|
  {
    if |t| == 0 {
      assert s + t == s;
    } else {
      var t' := t[..|t| - 1];
      var last := t[|t| - 1];
      assert (s + t)[..|s + t| - 1] == s + t';
      assert (s + t)[|s + t| - 1] == last;
      FilterConcat(p, s, t');
    }
  }

  /** The label: every letter of the hostname, in order. */
  function Label(hostname: string): (letters: string)
    ensures |letters| <= |hostname|
    ensures forall i :: 0 <= i < |letters| ==> IsLetter(letters[i])
    ensures (forall i :: 0 <= i < |hostname| ==> IsLetter(hostname[i])) ==> letters == hostname
  {
    Filter(IsLetter, hostname)
  }

  /** The number: every digit of the hostname, in order. */
  function Number(hostname: string): (number: string)
    ensures |number| <= |hostname|
    ensures forall i :: 0 <= i < |number| ==> IsDigit(number[i])
    ensures (forall i :: 0 <= i < |hostname| ==> !IsDigit(hostname[i])) <==> number == []
  {
    Filter(IsDigit, hostname)
  }

  /** The integer value of a decimal digit character. */
  function DigitValue(c: char): (d: Digit)
    requires IsDigit(c)
  {
    c as int - '0' as int
  }

  /** The digit character of a value, the inverse of `DigitValue`. */
  function DigitChar(d: Digit): (c: char)
    ensures IsDigit(c)
  {
    ('0' as int + d) as char
  }

  lemma DigitRoundTrip(d: Digit, c: char)
    requires IsDigit(c)
    ensures DigitValue(DigitChar(d)) == d
    ensures DigitChar(DigitValue(c)) == c
  {
  }

  /** The member index: the value of the last digit of the hostname, or 0 when
      it has no digit at all. */
  function Member(hostname: string): (m: Digit)
    ensures (forall i :: 0 <= i < |hostname| ==> !IsDigit(hostname[i])) ==> m == 0
  {
    var number := Number(hostname);
    if |number| == 0 then 0 else DigitValue(number[|number| - 1])
  }

  function Decompose(hostname: string): (h: Host)
    ensures forall i :: 0 <= i < |h.letters| ==> IsLetter(h.letters[i])
    ensures (forall i :: 0 <= i < |hostname| ==> !IsDigit(hostname[i])) ==> h.member == 0
  {
    Host(Label(hostname), Member(hostname))
  }

  /** Member is the value of the digit at the last position holding one;
      letters and every other character after it are ignored. */
  lemma MemberIsLastDigit(hostname: string, i: int)
    requires 0 <= i < |hostname| && IsDigit(hostname[i])
    requires forall j :: i < j < |hostname| ==> !IsDigit(hostname[j])
    ensures Member(hostname) == DigitValue(hostname[i])
  {
    var head, tail := hostname[..i + 1], hostname[i + 1..];
    assert hostname == head + tail;
    FilterConcat(IsDigit, head, tail);
    assert forall k :: 0 <= k < |tail| ==> tail[k] == hostname[i + 1 + k];
    assert head[..|head| - 1] == hostname[..i];
    assert Number(head) == Number(hostname[..i]) + [hostname[i]];
  }

  /** Appending a `0` to a hostname without digits leaves label and member as
      they were: a missing number reads as member 0. */
  lemma NoDigitIsMemberZero(hostname: string)
    requires forall i :: 0 <= i < |hostname| ==> !IsDigit(hostname[i])
    ensures Decompose(hostname + "0") == Decompose(hostname)
    ensures Member(hostname) == 0
  {
  }

  /** The label of a concatenation is the concatenation of the labels. */
  lemma LabelConcat(s: string, t: string)
    ensures Label(s + t) == Label(s) + Label(t)
  {
    FilterConcat(IsLetter, s, t);
  }

  /** A single character is its own label if it is a letter, and has an
      empty label otherwise. With `LabelConcat` this fixes the label of
      every string: its letters, in order. */
  lemma LabelOfChar(c: char)
    ensures Label([c]) == if IsLetter(c) then [c] else []
  {
  }

  /** The letters of a string, front to back: a reference definition of the
      label, independent of `Filter`. */
  function Letters(s: string): string {
    if |s| == 0 then []
    else (if IsLetter(s[0]) then [s[0]] else []) + Letters(s[1..])
  }

  /** The label is exactly the letters of the hostname, in order. */
  lemma {:induction false} LabelIsLetters(hostname: string)
    ensures Label(hostname) == Letters(hostname)
    decreases |hostname|
  {
    if |hostname| > 0 {
      var c, rest := hostname[0], hostname[1..];
      assert hostname == [c] + rest;
      LabelConcat([c], rest);
      LabelOfChar(c);
      LabelIsLetters(rest);
    }
  }

  /** Writing a host back as its label followed by its member digit gives a
      hostname that decomposes to the same host. */
  lemma RecomposeRoundTrip(h: Host)
    requires forall i :: 0 <= i < |h.letters| ==> IsLetter(h.letters[i])
    ensures Decompose(h.letters + [DigitChar(h.member)]) == h
  {
    var hostname := h.letters + [DigitChar(h.member)];
    LabelConcat(h.letters, [DigitChar(h.member)]);
    LabelOfChar(DigitChar(h.member));
    MemberIsLastDigit(hostname, |h.letters|);
  }

  /** Taking the label of a label changes nothing. */
  lemma LabelIdempotent(hostname: string)
    ensures Label(Label(hostname)) == Label(hostname)
  {
  }
}
