/**
 * Model of utils/uuid.ts: `generateUUIDv4` fills the template
 * "xxxxxxxx-xxxx-4xxx-yxxx-xxxxxxxxxxxx" by replacing each placeholder,
 * left to right, with one random hexadecimal digit. Randomness is an input:
 * the sequence of nibbles the callback draws, one per placeholder.
 * The layout is that of section 4.1.1 (variant) and section 4.4 (version 4)
 * of RFC 4122.
 */
module Uuid {

  /** A value of `(Math.random() * 16) | 0`: an integer in 0..15. */
  type Nibble = x: int | 0 <= x < 16

  /** The template "xxxxxxxx-xxxx-4xxx-yxxx-xxxxxxxxxxxx", written as its groups of 'x'
      (TemplateIsLiteral states that it is that literal). */
  const Template: string := Xs(8) + "-" + Xs(4) + "-4" + Xs(3) + "-y" + Xs(3) + "-" + Xs(12)

  function Xs(n: nat): (s: string)
    ensures |s| == n && forall i :: 0 <= i < n ==> s[i] == 'x'
  {
    seq(n, _ => 'x')
  }
  const HexDigits: string := "0123456789abcdef"
  const VariantDigits: string := "89ab"

  predicate IsPlaceholder(c: char) {
    c == 'x' || c == 'y'
  }

  /** `v.toString(16)` for a nibble: one lower-case hexadecimal digit. */
  function Hex(v: Nibble): (c: char)
    ensures c in HexDigits
  {
    HexDigits[v]
  }

  /** Inverse of Hex. */
  function HexValue(c: char): (v: Nibble)
    requires c in HexDigits
    ensures Hex(v) == c
  {
    if '0' <= c <= '9' then (c - '0') as int else (c - 'a') as int + 10
  }

  /** The variant nibble `(r & 0x3) | 0x8`: keeps the two low bits of r, sets the top bit. */
  function VariantNibble(r: Nibble): (v: Nibble)
    ensures 8 <= v <= 11
    ensures v % 4 == r % 4
  {
    (((r as bv8) & 0x3) | 0x8) as int
  }

  /** The callback of the `replace`: 'x' gives r, 'y' gives the variant nibble of r. */
  function Replacement(c: char, r: Nibble): (d: char)
    requires IsPlaceholder(c)
    // 'x' becomes the digit whose value is r
    ensures c == 'x' ==> d in HexDigits && HexValue(d) == r
    // 'y' becomes one of 8, 9, a, b, keeping the two low bits of r
    ensures c == 'y' ==> d in VariantDigits && HexValue(d) % 4 == r % 4
  {
    HexRoundTrip(r);
    HexRoundTrip(VariantNibble(r));
    assert VariantDigits == HexDigits[8..12];
    if c == 'x' then Hex(r) else Hex(VariantNibble(r))
  }

  /** Number of placeholders in t: how many nibbles one fill draws. */
  function Placeholders(t: string): nat
  {
    if t == [] then 0
    else (if IsPlaceholder(t[0]) then 1 else 0) + Placeholders(t[1..])
  }

  /** `t.replace(/[xy]/g, callback)`, the i-th placeholder receiving rand[i]. */
  function Fill(t: string, rand: seq<Nibble>): (s: string)
    requires |rand| == Placeholders(t)
    ensures |s| == |t|
  {
    if t == [] then []
    else if IsPlaceholder(t[0]) then [Replacement(t[0], rand[0])] + Fill(t[1..], rand[1..])
    else [t[0]] + Fill(t[1..], rand)
  }

  /** Template character tc admits output character sc. */
  predicate Admits(tc: char, sc: char) {
    if tc == 'x' then sc in HexDigits
    else if tc == 'y' then sc in VariantDigits
    else sc == tc
  }

  /** s is one of the strings that filling t can produce. */
  predicate Matches(t: string, s: string) {
    |s| == |t| && forall i :: 0 <= i < |t| ==> Admits(t[i], s[i])
  }

  /** The nibbles that make Fill(t, _) produce s: the inverse of Fill. */
  function Unfill(t: string, s: string): (rand: seq<Nibble>)
    requires Matches(t, s)
    ensures |rand| == Placeholders(t)
  {
    if t == [] then []
    else
      assert Admits(t[0], s[0]);
      assert Matches(t[1..], s[1..]) by {
        forall i | 0 <= i < |t| - 1 ensures Admits(t[1..][i], s[1..][i]) {
          assert Admits(t[i + 1], s[i + 1]);
        }
      }
      if t[0] == 'x' then [HexValue(s[0])] + Unfill(t[1..], s[1..])
      else if t[0] == 'y' then [HexValue(s[0]) - 8] + Unfill(t[1..], s[1..])
      else Unfill(t[1..], s[1..])
  }

  /** `generateUUIDv4`: the fill of the fixed template. */
  function GenerateUuidV4(rand: seq<Nibble>): (s: string)
    requires |rand| == 31
    ensures |s| == 36
  {
    TemplatePlaceholders();
    Fill(Template, rand)
  }

  /** A version-4, variant-1 UUID in its textual form (RFC 4122, sections 3, 4.1.1 and 4.4),
      with lower-case digits. */
  predicate IsUuidV4(s: string) {
    && |s| == 36
    && (forall i :: 0 <= i < 36 && IsDashPosition(i) ==> s[i] == '-')
    && (forall i :: 0 <= i < 36 && !IsDashPosition(i) ==> s[i] in HexDigits)
    && s[14] == '4'
    && s[19] in VariantDigits
  }

  predicate IsDashPosition(i: int) {
    i == 8 || i == 13 || i == 18 || i == 23
  }

  // ---------------------------------------------------------------------------
  // Lemmas

  /** Reading back the digit of a nibble gives the nibble. */
  lemma HexRoundTrip(v: Nibble)
    ensures HexValue(Hex(v)) == v
  {
    var w := HexValue(Hex(v));
    assert HexDigits[w] == HexDigits[v];
  }

  lemma {:induction false} PlaceholdersAppend(a: string, b: string)
    ensures Placeholders(a + b) == Placeholders(a) + Placeholders(b)
  {
    if a == [] {
      assert a + b == b;
    } else {
      assert (a + b)[1..] == a[1..] + b;
      PlaceholdersAppend(a[1..], b);
    }
  }

  lemma {:induction false} PlaceholdersOfXs(n: nat)
    ensures Placeholders(Xs(n)) == n
  {
    if n > 0 {
      assert Xs(n)[1..] == Xs(n - 1);
      PlaceholdersOfXs(n - 1);
    }
  }

  /** One UUID draws exactly 31 random nibbles. */
  lemma TemplatePlaceholders()
    ensures Placeholders(Template) == 31
  {
    PlaceholdersOfXs(8);
    PlaceholdersOfXs(4);
    PlaceholdersOfXs(3);
    PlaceholdersOfXs(12);
    PlaceholdersAppend(Xs(8), "-");
    PlaceholdersAppend(Xs(8) + "-", Xs(4));
    PlaceholdersAppend(Xs(8) + "-" + Xs(4), "-4");
    PlaceholdersAppend(Xs(8) + "-" + Xs(4) + "-4", Xs(3));
    PlaceholdersAppend(Xs(8) + "-" + Xs(4) + "-4" + Xs(3), "-y");
    PlaceholdersAppend(Xs(8) + "-" + Xs(4) + "-4" + Xs(3) + "-y", Xs(3));
    PlaceholdersAppend(Xs(8) + "-" + Xs(4) + "-4" + Xs(3) + "-y" + Xs(3), "-");
    PlaceholdersAppend(Xs(8) + "-" + Xs(4) + "-4" + Xs(3) + "-y" + Xs(3) + "-", Xs(12));
  }

  /** The template, position by position. */
  lemma TemplateAt(i: nat)
    requires i < 36
    ensures |Template| == 36
    ensures Template[i] == if IsDashPosition(i) then '-' else if i == 14 then '4' else if i == 19 then 'y' else 'x'
  {
  }

  /** The i-th output character: copied when t[i] is not a placeholder, otherwise the
      replacement for the nibble drawn by that placeholder, which is the one after
      all placeholders before position i. */
  lemma {:induction false} FillAt(t: string, rand: seq<Nibble>, i: nat)
    requires |rand| == Placeholders(t)
    requires i < |t|
    ensures !IsPlaceholder(t[i]) ==> Fill(t, rand)[i] == t[i]
    ensures IsPlaceholder(t[i]) ==>
      Placeholders(t[..i]) < |rand| && Fill(t, rand)[i] == Replacement(t[i], rand[Placeholders(t[..i])])
  {
    if i == 0 {
      assert t[..0] == [];
    } else {
      var head := if IsPlaceholder(t[0]) then 1 else 0;
      var rest := rand[head..];
      assert t[1..][..i - 1] == t[..i][1..];
      assert Placeholders(t[..i]) == head + Placeholders(t[1..][..i - 1]);
      assert Fill(t, rand)[i] == Fill(t[1..], rest)[i - 1];
      FillAt(t[1..], rest, i - 1);
    }
  }

  /** Every fill of t is admitted by t. */
  lemma {:induction false} FillMatches(t: string, rand: seq<Nibble>)
    requires |rand| == Placeholders(t)
    ensures Matches(t, Fill(t, rand))
  {
    var s := Fill(t, rand);
    forall i | 0 <= i < |t| ensures Admits(t[i], s[i]) {
      FillAt(t, rand, i);
      if IsPlaceholder(t[i]) {
        var r := rand[Placeholders(t[..i])];
        if t[i] == 'y' {
          var v := VariantNibble(r);
          assert HexDigits[v] in VariantDigits by {
            assert VariantDigits == HexDigits[8..12];
          }
        }
      }
    }
  }

  /** A string admitted by t is admitted, past their first characters, by the rest of t. */
  lemma MatchesTail(t: string, s: string)
    requires Matches(t, s) && t != []
    ensures Admits(t[0], s[0]) && Matches(t[1..], s[1..])
  {
    forall i | 0 <= i < |t| - 1 ensures Admits(t[1..][i], s[1..][i]) {
      assert Admits(t[i + 1], s[i + 1]);
    }
  }

  /** A variant digit is the replacement for 'y' of its value less 8. */
  lemma VariantRoundTrip(c: char)
    requires c in VariantDigits
    ensures c in HexDigits && 8 <= HexValue(c) <= 11
    ensures Replacement('y', HexValue(c) - 8) == c
  {
    assert VariantDigits == HexDigits[8..12];
    var v := HexValue(c);
    assert VariantNibble(v - 8) == v;
  }

  /** Round trip: filling t with the nibbles read back from an admitted s gives s. */
  lemma {:induction false} FillUnfill(t: string, s: string)
    requires Matches(t, s)
    ensures Fill(t, Unfill(t, s)) == s
  {
    if t != [] {
      MatchesTail(t, s);
      FillUnfill(t[1..], s[1..]);
      if t[0] == 'y' {
        VariantRoundTrip(s[0]);
      }
      assert s == [s[0]] + s[1..];
    }
  }

  lemma TemplateIsLiteral()
    ensures Template == "xxxxxxxx-xxxx-4xxx-yxxx-xxxxxxxxxxxx"
  {
    assert Xs(8) == "xxxxxxxx" && Xs(4) == "xxxx" && Xs(3) == "xxx" && Xs(12) == "xxxxxxxxxxxx";
  }

  /** The strings the template admits are exactly the version-4 UUIDs. */
  lemma MatchesTemplateIffUuidV4(s: string)
    ensures Matches(Template, s) <==> IsUuidV4(s)
  {
    if Matches(Template, s) {
      TemplateAt(14);
      TemplateAt(19);
      assert Admits(Template[14], s[14]) && Admits(Template[19], s[19]);
      forall i | 0 <= i < 36 && IsDashPosition(i) ensures s[i] == '-' {
        TemplateAt(i);
        assert Admits(Template[i], s[i]);
      }
      forall i | 0 <= i < 36 && !IsDashPosition(i) ensures s[i] in HexDigits {
        TemplateAt(i);
        assert Admits(Template[i], s[i]);
        assert VariantDigits <= HexDigits[8..12];
      }
    }
    if IsUuidV4(s) {
      forall i | 0 <= i < |Template| ensures Admits(Template[i], s[i]) {
        TemplateAt(i);
      }
    }
  }

  /** Every generated identifier is a version-4 UUID: 36 characters, dashes at 8, 13, 18
      and 23, version digit '4' at 14 and a variant digit in "89ab" at 19. */
  lemma GenerateIsUuidV4(rand: seq<Nibble>)
    requires |rand| == 31
    ensures IsUuidV4(GenerateUuidV4(rand))
  {
    TemplatePlaceholders();
    FillMatches(Template, rand);
    MatchesTemplateIffUuidV4(GenerateUuidV4(rand));
  }

  /** Conversely, every version-4 UUID is generated by some draw of 31 nibbles. */
  lemma EveryUuidV4IsGenerated(s: string)
    requires IsUuidV4(s)
    ensures exists rand: seq<Nibble> :: |rand| == 31 && GenerateUuidV4(rand) == s
  {
    MatchesTemplateIffUuidV4(s);
    TemplatePlaceholders();
    FillUnfill(Template, s);
    var rand := Unfill(Template, s);
    assert GenerateUuidV4(rand) == s;
  }

  /** Number of template characters before position i that are not placeholders. */
  function FixedBefore(i: nat): nat {
    (if i > 8 then 1 else 0) + (if i > 13 then 1 else 0) + (if i > 14 then 1 else 0)
    + (if i > 18 then 1 else 0) + (if i > 23 then 1 else 0)
  }

  lemma {:induction false} TemplatePrefixPlaceholders(i: nat)
    requires i <= 36
    ensures Placeholders(Template[..i]) == i - FixedBefore(i)
  {
    if i == 0 {
      assert Template[..0] == [];
    } else {
      TemplatePrefixPlaceholders(i - 1);
      assert Template[..i] == Template[..i - 1] + [Template[i - 1]];
      PlaceholdersAppend(Template[..i - 1], [Template[i - 1]]);
      TemplateAt(i - 1);
      assert Placeholders([Template[i - 1]]) == if IsPlaceholder(Template[i - 1]) then 1 else 0;
    }
  }

  /** Position by position: dashes and the version digit are copied, every 'x' is the
      hexadecimal digit of its own nibble (the nibbles taken in order), and the 'y' at 19
      is the variant digit of the sixteenth nibble. */
  lemma GenerateAt(rand: seq<Nibble>, i: nat)
    requires |rand| == 31
    requires i < 36
    ensures GenerateUuidV4(rand)[i] ==
      if IsDashPosition(i) then '-'
      else if i == 14 then '4'
      else if i == 19 then Hex(VariantNibble(rand[15]))
      else Hex(rand[i - FixedBefore(i)])
  {
    TemplatePlaceholders();
    var s := Fill(Template, rand);
    assert GenerateUuidV4(rand) == s;
    TemplateAt(i);
    FillAt(Template, rand, i);
    var k := Placeholders(Template[..i]);
    TemplatePrefixPlaceholders(i);
    if IsDashPosition(i) || i == 14 {
      assert s[i] == Template[i];
    } else if i == 19 {
      assert k == 15 && s[i] == Replacement('y', rand[k]);
    } else {
      assert k == i - FixedBefore(i) && s[i] == Replacement('x', rand[k]);
    }
  }
}
