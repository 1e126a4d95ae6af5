/**
 * The pieces of the voice-generation page's text composition: the fixed
 * glyph buttons, and the widget keys built from counters.
 */
module TextBuffer {
  import Decimal

  /** The diacritic vowels and the glottal-stop letter offered as one-click appends. */
  const SpecialChars: seq<char> := ['ā', 'ē', 'ī', 'ō', 'ū', 'ꞌ']

  /** The text a new session starts with. */
  const Greeting: string := "Kia orana kōtou kātoatoa"

  const TextInputPrefix: string := "text_input_"
  const GlyphPrefix: string := "btn_char_"

  /** Two keys built from one prefix are equal only when their counters are. */
  lemma PrefixedKeyInjective(prefix: string, m: nat, n: nat)
    requires prefix + Decimal.NatToDecimal(m) == prefix + Decimal.NatToDecimal(n)
    ensures m == n
  {
    var a := prefix + Decimal.NatToDecimal(m);
    var b := prefix + Decimal.NatToDecimal(n);
    assert a[|prefix|..] == Decimal.NatToDecimal(m);
    assert b[|prefix|..] == Decimal.NatToDecimal(n);
    Decimal.NatToDecimalInjective(m, n);
  }

  /** The key of the text input while the widget counter is `n`. */
  function TextInputKey(n: nat): (key: string)
    ensures TextInputPrefix <= key
    ensures Decimal.AllDigits(key[|TextInputPrefix|..])
    ensures Decimal.DecimalValue(key[|TextInputPrefix|..]) == n
  {
    var key := TextInputPrefix + Decimal.NatToDecimal(n);
    assert key[|TextInputPrefix|..] == Decimal.NatToDecimal(n);
    Decimal.DecimalRoundTrip(n);
    key
  }

  /** Each counter value names its own text input, so a bumped counter names a new widget. */
  lemma TextInputKeyInjective(m: nat, n: nat)
    requires TextInputKey(m) == TextInputKey(n)
    ensures m == n
  {
    PrefixedKeyInjective(TextInputPrefix, m, n);
  }

  function GlyphKey(idx: nat): (key: string)
    ensures GlyphPrefix <= key
    ensures Decimal.AllDigits(key[|GlyphPrefix|..])
    ensures Decimal.DecimalValue(key[|GlyphPrefix|..]) == idx
  {
    var key := GlyphPrefix + Decimal.NatToDecimal(idx);
    assert key[|GlyphPrefix|..] == Decimal.NatToDecimal(idx);
    Decimal.DecimalRoundTrip(idx);
    key
  }

  /** One glyph button: its widget key and the character its click appends. */
  datatype GlyphButton = GlyphButton(key: string, glyph: char)

  /**
   * The row of glyph buttons, one per special character in order, the
   * `idx`-th keyed by `btn_char_<idx>`.
   */
  method GlyphButtons() returns (buttons: seq<GlyphButton>)
    ensures |buttons| == |SpecialChars|
    ensures forall i :: 0 <= i < |buttons| ==> buttons[i].glyph == SpecialChars[i]
    ensures forall i :: 0 <= i < |buttons| ==> buttons[i].key == GlyphKey(i)
  {
    buttons := [];
    for idx := 0 to |SpecialChars|
      invariant |buttons| == idx
      invariant forall i :: 0 <= i < idx ==> buttons[i] == GlyphButton(GlyphKey(i), SpecialChars[i])
    {
      buttons := buttons + [GlyphButton(GlyphKey(idx), SpecialChars[idx])];
    }
  }

  /** The glyph buttons' keys are pairwise distinct, as widget keys must be. */
  lemma GlyphKeysDistinct(i: nat, j: nat)
    requires i != j
    ensures GlyphKey(i) != GlyphKey(j)
  {
    if GlyphKey(i) == GlyphKey(j) {
      PrefixedKeyInjective(GlyphPrefix, i, j);
    }
  }
}
