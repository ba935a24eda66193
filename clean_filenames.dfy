/**
 * The upload filename cleaner: a `wp_handle_upload_prefilter` /
 * `wp_handle_sideload_prefilter` callback that rewrites the stem of an
 * uploaded file's name into a lower-case, dash-separated slug, and an
 * `add_attachment` callback that turns the original stem into the
 * attachment's title.
 */
module CleanFilenames {
  import opened Php
  import opened Hooks

  /* ---------------------------------------------------------------------- */
  /* Character classes                                                        */
  /* ---------------------------------------------------------------------- */

  /** The characters the final filter keeps: `[a-z0-9\-]`. */
  predicate IsSlugChar(c: char) {
    IsAsciiLower(c) || IsAsciiDigit(c) || c == '-'
  }

  predicate SlugText(s: string) {
    forall i :: 0 <= i < |s| ==> IsSlugChar(s[i])
  }

  predicate NoDoubleDash(s: string) {
    forall i :: 0 <= i < |s| - 1 ==> !(s[i] == '-' && s[i + 1] == '-')
  }

  predicate NoEdgeDash(s: string) {
    s == [] || (s[0] != '-' && s[|s| - 1] != '-')
  }

  /** What a cleaned stem looks like: `[a-z0-9]` words joined by single dashes. */
  predicate IsSlug(s: string) {
    SlugText(s) && NoDoubleDash(s) && NoEdgeDash(s)
  }

  /* ---------------------------------------------------------------------- */
  /* The substitution table                                                   */
  /* ---------------------------------------------------------------------- */

  /**
   * Every row of the table: a non-empty search string whose first character
   * is not a slug character, replaced by slug characters only.
   */
  predicate Row(p: (string, string)) {
    p.0 != [] && !IsSlugChar(p.0[0]) && SlugText(p.1)
  }

  /** A row that replaces one character other than `%`. */
  predicate CharRow(p: (string, string)) {
    Row(p) && |p.0| == 1 && p.0[0] != '%'
  }

  type SlugString = s: string | SlugText(s)

  type KeyChar = c: char | !IsSlugChar(c) && c != '%' witness '!'

  /** A key outside ASCII, as every letter row and typographic symbol has. */
  type WideChar = c: KeyChar | c > '\U{7f}' witness '\U{e5}'

  /** A single-character row of the table with an ASCII key, as the symbol and whitespace groups list them. */
  datatype CharSub = CharSub(key: KeyChar, rep: SlugString)

  /** A single-character row of the table with a key outside ASCII, as the letter and typographic groups list them. */
  datatype WideSub = WideSub(key: WideChar, rep: SlugString)

  /** The row a single-character substitution stands for. */
  function AsRow(key: KeyChar, rep: SlugString): (p: (string, string))
    ensures CharRow(p)
  {
    ([key], rep)
  }

  /** Swedish/Nordic letters. */
  function Nordic(i: nat): WideSub
    requires i < 10
  {
    ( [WideSub('\U{e5}', "a"), WideSub('\U{c5}', "a"), WideSub('\U{e4}', "a"), WideSub('\U{c4}', "a"), WideSub('\U{f6}', "o"), WideSub('\U{d6}', "o")]
    + [WideSub('\U{e6}', "ae"), WideSub('\U{c6}', "ae"), WideSub('\U{f8}', "o"), WideSub('\U{d8}', "o")])[i]
  }

  /** German letters. */
  function German(i: nat): WideSub
    requires i < 3
  {
    [WideSub('\U{fc}', "u"), WideSub('\U{dc}', "u"), WideSub('\U{df}', "ss")][i]
  }

  /** French/Spanish/Portuguese letters. */
  function Romance(i: nat): WideSub
    requires i < 46
  {
    ( [WideSub('\U{e9}', "e"), WideSub('\U{c9}', "e"), WideSub('\U{e8}', "e"), WideSub('\U{c8}', "e"), WideSub('\U{ea}', "e"), WideSub('\U{ca}', "e"), WideSub('\U{eb}', "e"), WideSub('\U{cb}', "e")]
    + [WideSub('\U{e1}', "a"), WideSub('\U{c1}', "a"), WideSub('\U{e0}', "a"), WideSub('\U{c0}', "a"), WideSub('\U{e2}', "a"), WideSub('\U{c2}', "a"), WideSub('\U{e3}', "a"), WideSub('\U{c3}', "a")]
    + [WideSub('\U{ed}', "i"), WideSub('\U{cd}', "i"), WideSub('\U{ec}', "i"), WideSub('\U{cc}', "i"), WideSub('\U{ee}', "i"), WideSub('\U{ce}', "i"), WideSub('\U{ef}', "i"), WideSub('\U{cf}', "i")]
    + [WideSub('\U{f3}', "o"), WideSub('\U{d3}', "o"), WideSub('\U{f2}', "o"), WideSub('\U{d2}', "o"), WideSub('\U{f4}', "o"), WideSub('\U{d4}', "o"), WideSub('\U{f5}', "o"), WideSub('\U{d5}', "o")]
    + [WideSub('\U{fa}', "u"), WideSub('\U{da}', "u"), WideSub('\U{f9}', "u"), WideSub('\U{d9}', "u"), WideSub('\U{fb}', "u"), WideSub('\U{db}', "u")]
    + [WideSub('\U{f1}', "n"), WideSub('\U{d1}', "n"), WideSub('\U{e7}', "c"), WideSub('\U{c7}', "c")]
    + [WideSub('\U{fd}', "y"), WideSub('\U{dd}', "y"), WideSub('\U{ff}', "y"), WideSub('\U{178}', "y")])[i]
  }

  /** Polish letters. */
  function Polish(i: nat): WideSub
    requires i < 16
  {
    ( [WideSub('\U{105}', "a"), WideSub('\U{104}', "a"), WideSub('\U{107}', "c"), WideSub('\U{106}', "c"), WideSub('\U{119}', "e"), WideSub('\U{118}', "e")]
    + [WideSub('\U{142}', "l"), WideSub('\U{141}', "l"), WideSub('\U{144}', "n"), WideSub('\U{143}', "n"), WideSub('\U{15b}', "s"), WideSub('\U{15a}', "s")]
    + [WideSub('\U{17a}', "z"), WideSub('\U{179}', "z"), WideSub('\U{17c}', "z"), WideSub('\U{17b}', "z")])[i]
  }

  /** Czech/Slovak letters. */
  function CzechSlovak(i: nat): WideSub
    requires i < 18
  {
    ( [WideSub('\U{10d}', "c"), WideSub('\U{10c}', "c"), WideSub('\U{10f}', "d"), WideSub('\U{10e}', "d"), WideSub('\U{11b}', "e"), WideSub('\U{11a}', "e")]
    + [WideSub('\U{148}', "n"), WideSub('\U{147}', "n"), WideSub('\U{159}', "r"), WideSub('\U{158}', "r"), WideSub('\U{161}', "s"), WideSub('\U{160}', "s")]
    + [WideSub('\U{165}', "t"), WideSub('\U{164}', "t"), WideSub('\U{16f}', "u"), WideSub('\U{16e}', "u"), WideSub('\U{17e}', "z"), WideSub('\U{17d}', "z")])[i]
  }

  /** Hungarian letters. */
  function Hungarian(i: nat): WideSub
    requires i < 4
  {
    [WideSub('\U{151}', "o"), WideSub('\U{150}', "o"), WideSub('\U{171}', "u"), WideSub('\U{170}', "u")][i]
  }

  /** Turkish letters. */
  function Turkish(i: nat): WideSub
    requires i < 6
  {
    [WideSub('\U{11f}', "g"), WideSub('\U{11e}', "g"), WideSub('\U{131}', "i"), WideSub('\U{130}', "i"), WideSub('\U{15f}', "s"), WideSub('\U{15e}', "s")][i]
  }

  /** Icelandic letters. */
  function Icelandic(i: nat): WideSub
    requires i < 4
  {
    [WideSub('\U{f0}', "d"), WideSub('\U{d0}', "d"), WideSub('\U{fe}', "th"), WideSub('\U{de}', "th")][i]
  }

  /** Greek letters. */
  function GreekLetters(i: nat): WideSub
    requires i < 49
  {
    ( [WideSub('\U{3b1}', "a"), WideSub('\U{391}', "a"), WideSub('\U{3b2}', "v"), WideSub('\U{392}', "v"), WideSub('\U{3b3}', "g"), WideSub('\U{393}', "g")]
    + [WideSub('\U{3b4}', "d"), WideSub('\U{394}', "d"), WideSub('\U{3b5}', "e"), WideSub('\U{395}', "e"), WideSub('\U{3b6}', "z"), WideSub('\U{396}', "z")]
    + [WideSub('\U{3b7}', "i"), WideSub('\U{397}', "i"), WideSub('\U{3b8}', "th"), WideSub('\U{398}', "th"), WideSub('\U{3b9}', "i"), WideSub('\U{399}', "i")]
    + [WideSub('\U{3ba}', "k"), WideSub('\U{39a}', "k"), WideSub('\U{3bb}', "l"), WideSub('\U{39b}', "l"), WideSub('\U{3bc}', "m"), WideSub('\U{39c}', "m")]
    + [WideSub('\U{3bd}', "n"), WideSub('\U{39d}', "n"), WideSub('\U{3be}', "x"), WideSub('\U{39e}', "x"), WideSub('\U{3bf}', "o"), WideSub('\U{39f}', "o")]
    + [WideSub('\U{3c0}', "p"), WideSub('\U{3a0}', "p"), WideSub('\U{3c1}', "r"), WideSub('\U{3a1}', "r"), WideSub('\U{3c3}', "s"), WideSub('\U{3a3}', "s")]
    + [WideSub('\U{3c2}', "s"), WideSub('\U{3c4}', "t"), WideSub('\U{3a4}', "t"), WideSub('\U{3c5}', "y"), WideSub('\U{3a5}', "y"), WideSub('\U{3c6}', "f")]
    + [WideSub('\U{3a6}', "f"), WideSub('\U{3c7}', "ch"), WideSub('\U{3a7}', "ch"), WideSub('\U{3c8}', "ps"), WideSub('\U{3a8}', "ps"), WideSub('\U{3c9}', "o")]
    + [WideSub('\U{3a9}', "o")])[i]
  }

  /** Greek letters with tonos or dialytika. */
  function GreekAccented(i: nat): WideSub
    requires i < 18
  {
    ( [WideSub('\U{3ac}', "a"), WideSub('\U{386}', "a"), WideSub('\U{3ad}', "e"), WideSub('\U{388}', "e"), WideSub('\U{3ae}', "i"), WideSub('\U{389}', "i")]
    + [WideSub('\U{3af}', "i"), WideSub('\U{38a}', "i"), WideSub('\U{3cc}', "o"), WideSub('\U{38c}', "o"), WideSub('\U{3cd}', "y"), WideSub('\U{38e}', "y")]
    + [WideSub('\U{3ce}', "o"), WideSub('\U{38f}', "o"), WideSub('\U{3ca}', "i"), WideSub('\U{3aa}', "i"), WideSub('\U{3cb}', "y"), WideSub('\U{3ab}', "y")])[i]
  }

  /** Russian/Cyrillic letters. */
  function Cyrillic(i: nat): WideSub
    requires i < 66
  {
    if i < 36 then CyrillicAToEr(i) else CyrillicEsToYa(i - 36)
  }

  /** Russian/Cyrillic letters, `а` to `р`. */
  function CyrillicAToEr(i: nat): WideSub
    requires i < 36
  {
    ( [WideSub('\U{430}', "a"), WideSub('\U{410}', "a"), WideSub('\U{431}', "b"), WideSub('\U{411}', "b"), WideSub('\U{432}', "v"), WideSub('\U{412}', "v")]
    + [WideSub('\U{433}', "g"), WideSub('\U{413}', "g"), WideSub('\U{434}', "d"), WideSub('\U{414}', "d"), WideSub('\U{435}', "e"), WideSub('\U{415}', "e")]
    + [WideSub('\U{451}', "yo"), WideSub('\U{401}', "yo"), WideSub('\U{436}', "zh"), WideSub('\U{416}', "zh"), WideSub('\U{437}', "z"), WideSub('\U{417}', "z")]
    + [WideSub('\U{438}', "i"), WideSub('\U{418}', "i"), WideSub('\U{439}', "j"), WideSub('\U{419}', "j"), WideSub('\U{43a}', "k"), WideSub('\U{41a}', "k")]
    + [WideSub('\U{43b}', "l"), WideSub('\U{41b}', "l"), WideSub('\U{43c}', "m"), WideSub('\U{41c}', "m"), WideSub('\U{43d}', "n"), WideSub('\U{41d}', "n")]
    + [WideSub('\U{43e}', "o"), WideSub('\U{41e}', "o"), WideSub('\U{43f}', "p"), WideSub('\U{41f}', "p"), WideSub('\U{440}', "r"), WideSub('\U{420}', "r")])[i]
  }

  /** Russian/Cyrillic letters, `с` to `я`. */
  function CyrillicEsToYa(i: nat): WideSub
    requires i < 30
  {
    ( [WideSub('\U{441}', "s"), WideSub('\U{421}', "s"), WideSub('\U{442}', "t"), WideSub('\U{422}', "t"), WideSub('\U{443}', "u"), WideSub('\U{423}', "u")]
    + [WideSub('\U{444}', "f"), WideSub('\U{424}', "f"), WideSub('\U{445}', "h"), WideSub('\U{425}', "h"), WideSub('\U{446}', "c"), WideSub('\U{426}', "c")]
    + [WideSub('\U{447}', "ch"), WideSub('\U{427}', "ch"), WideSub('\U{448}', "sh"), WideSub('\U{428}', "sh"), WideSub('\U{449}', "shch"), WideSub('\U{429}', "shch")]
    + [WideSub('\U{44a}', ""), WideSub('\U{42a}', ""), WideSub('\U{44b}', "y"), WideSub('\U{42b}', "y"), WideSub('\U{44c}', ""), WideSub('\U{42c}', "")]
    + [WideSub('\U{44d}', "e"), WideSub('\U{42d}', "e"), WideSub('\U{44e}', "yu"), WideSub('\U{42e}', "yu"), WideSub('\U{44f}', "ya"), WideSub('\U{42f}', "ya")])[i]
  }

  /** Ukrainian letters. */
  function Ukrainian(i: nat): WideSub
    requires i < 8
  {
    ( [WideSub('\U{454}', "ye"), WideSub('\U{404}', "ye"), WideSub('\U{456}', "i"), WideSub('\U{406}', "i"), WideSub('\U{457}', "yi"), WideSub('\U{407}', "yi")]
    + [WideSub('\U{491}', "g"), WideSub('\U{490}', "g")])[i]
  }

  /** The symbols listed before `%`. */
  function SymbolsBeforePercent(i: nat): CharSub
    requires i < 4
  {
    [CharSub('&', "-and-"), CharSub('@', "-at-"), CharSub('#', ""), CharSub('$', "")][i]
  }

  /** The ASCII symbols listed after `%`. */
  function AsciiSymbols(i: nat): CharSub
    requires i < 25
  {
    ( [CharSub('^', ""), CharSub('*', ""), CharSub('(', ""), CharSub(')', ""), CharSub('[', ""), CharSub(']', ""), CharSub('{', ""), CharSub('}', "")]
    + [CharSub('|', ""), CharSub('\\', ""), CharSub('/', "-"), CharSub(':', ""), CharSub(';', ""), CharSub('"', ""), CharSub('\'', ""), CharSub('<', "")]
    + [CharSub('>', ""), CharSub(',', ""), CharSub('.', "-"), CharSub('?', ""), CharSub('!', ""), CharSub('`', ""), CharSub('~', ""), CharSub('=', "")]
    + [CharSub('+', "")])[i]
  }

  /** The typographic symbols listed after `%`. */
  function TypographicSymbols(i: nat): WideSub
    requires i < 16
  {
    ( [WideSub('\U{d7}', "x"), WideSub('\U{2013}', "-"), WideSub('\U{2014}', "-"), WideSub('\U{2018}', ""), WideSub('\U{2019}', ""), WideSub('\U{201c}', ""), WideSub('\U{201d}', ""), WideSub('\U{2026}', "")]
    + [WideSub('\U{a9}', ""), WideSub('\U{ae}', ""), WideSub('\U{2122}', ""), WideSub('\U{b0}', ""), WideSub('\U{20ac}', "eur"), WideSub('\U{a3}', "gbp"), WideSub('\U{a5}', "yen"), WideSub('\U{a2}', "c")])[i]
  }

  /** Whitespace and the underscore. */
  function Whitespace(i: nat): CharSub
    requires i < 5
  {
    [CharSub(' ', "-"), CharSub('\t', "-"), CharSub('\n', "-"), CharSub('\r', "-"), CharSub('_', "-")][i]
  }

  /** The 248 letter rows, group after group. */
  function Letter(i: nat): WideSub
    requires i < 248
  {
    if i < 10 then Nordic(i)
    else if i < 13 then German(i - 10)
    else if i < 59 then Romance(i - 13)
    else if i < 75 then Polish(i - 59)
    else if i < 93 then CzechSlovak(i - 75)
    else if i < 97 then Hungarian(i - 93)
    else if i < 103 then Turkish(i - 97)
    else if i < 107 then Icelandic(i - 103)
    else if i < 156 then GreekLetters(i - 107)
    else if i < 174 then GreekAccented(i - 156)
    else if i < 240 then Cyrillic(i - 174)
    else Ukrainian(i - 240)
  }

  /** `%`, which is listed among the symbols, and `%20`, which is listed last. */
  function PercentRow(): (string, string) { ("%", "") }
  function EncodedSpaceRow(): (string, string) { ("%20", "-") }

  /** The number of rows, and the position of the `%` row. */
  const TableSize: nat := 300
  const PercentIndex: nat := 252

  /**
   * Row `i` of the replacement table, in the order the source lists it:
   * the letters, four symbols, `%`, the other symbols, whitespace, `%20`.
   * Every row but `%` and `%20` replaces one character other than `%`.
   */
  function TableRow(i: nat): (p: (string, string))
    requires i < TableSize
    ensures Row(p)
    ensures i != PercentIndex && i != TableSize - 1 ==> CharRow(p)
    ensures i < 248 || 278 <= i < 294 ==> p.0[0] > '\U{7f}'
  {
    if i < 248 then AsRow(Letter(i).key, Letter(i).rep)
    else if i < 252 then AsRow(SymbolsBeforePercent(i - 248).key, SymbolsBeforePercent(i - 248).rep)
    else if i == 252 then PercentRow()
    else if i < 278 then AsRow(AsciiSymbols(i - 253).key, AsciiSymbols(i - 253).rep)
    else if i < 294 then AsRow(TypographicSymbols(i - 278).key, TypographicSymbols(i - 278).rep)
    else if i < 299 then AsRow(Whitespace(i - 294).key, Whitespace(i - 294).rep)
    else EncodedSpaceRow()
  }

  /* ---------------------------------------------------------------------- */
  /* str_replace                                                              */
  /* ---------------------------------------------------------------------- */

  /**
   * `str_replace( $key, $rep, $s )`: every leftmost, non-overlapping
   * occurrence of `key` is replaced by `rep`; an empty key changes nothing.
   */
  function ReplaceAll(s: string, key: string, rep: string): (r: string)
    ensures key == [] ==> r == s
    ensures key != [] && key[0] !in s ==> r == s
    decreases |s|
  {
    if key == [] || |s| < |key| then s
    else if key <= s then rep + ReplaceAll(s[|key|..], key, rep)
    else [s[0]] + ReplaceAll(s[1..], key, rep)
  }

  /** A pass writes no character that was neither in `s` nor in `rep`. */
  lemma {:induction false} ReplaceAllChars(s: string, key: string, rep: string, c: char)
    requires c !in s && c !in rep
    ensures c !in ReplaceAll(s, key, rep)
    decreases |s|
  {
    if key == [] || |s| < |key| {
    } else if key <= s {
      ReplaceAllChars(s[|key|..], key, rep, c);
    } else {
      ReplaceAllChars(s[1..], key, rep, c);
    }
  }

  /** A pass for a one-character key removes that character, unless `rep` contains it. */
  lemma {:induction false} ReplaceAllRemoves(s: string, key: string, rep: string)
    requires |key| == 1 && key[0] !in rep
    ensures key[0] !in ReplaceAll(s, key, rep)
    decreases |s|
  {
    if |s| < |key| {
    } else if key <= s {
      ReplaceAllRemoves(s[1..], key, rep);
    } else {
      ReplaceAllRemoves(s[1..], key, rep);
    }
  }

  /**
   * `str_replace( array_keys( $replacements ), array_values( $replacements ), $s )`
   * restricted to rows `from` up to `to`: one replace-all pass per row, each
   * over the result of the previous one.
   */
  function ApplyRows(s: string, from: nat, to: nat): string
    requires from <= to <= TableSize
    decreases TableSize - from
  {
    if from == to then s else ApplyRows(ReplaceAll(s, TableRow(from).0, TableRow(from).1), from + 1, to)
  }

  /** The whole table, applied to a filename. */
  function Transliterate(s: string): string {
    ApplyRows(s, 0, TableSize)
  }

  /** Applying a run of rows is applying its first part, then the rest. */
  lemma {:induction false} ApplyRowsSplit(s: string, from: nat, mid: nat, to: nat)
    requires from <= mid <= to <= TableSize
    ensures ApplyRows(s, from, to) == ApplyRows(ApplyRows(s, from, mid), mid, to)
    decreases TableSize - from
  {
    if from < mid {
      ApplyRowsSplit(ReplaceAll(s, TableRow(from).0, TableRow(from).1), from + 1, mid, to);
    }
  }

  /** Rows whose search string cannot start anywhere in `s` leave it alone. */
  lemma {:induction false} ApplyRowsUntouched(s: string, from: nat, to: nat)
    requires from <= to <= TableSize
    requires forall i :: from <= i < to ==> TableRow(i).0[0] !in s
    ensures ApplyRows(s, from, to) == s
    decreases TableSize - from
  {
    if from < to {
      assert TableRow(from).0[0] !in s;
      ApplyRowsUntouched(s, from + 1, to);
    }
  }

  /** A character that is not a slug character, once absent, stays absent. */
  lemma {:induction false} ApplyRowsKeepsOut(s: string, from: nat, to: nat, c: char)
    requires from <= to <= TableSize
    requires !IsSlugChar(c) && c !in s
    ensures c !in ApplyRows(s, from, to)
    decreases TableSize - from
  {
    if from < to {
      var p := TableRow(from);
      assert c !in p.1;
      ReplaceAllChars(s, p.0, p.1, c);
      ApplyRowsKeepsOut(ReplaceAll(s, p.0, p.1), from + 1, to, c);
    }
  }

  lemma SlugTextUntouchedByRows(s: string, from: nat, to: nat)
    requires from <= to <= TableSize
    requires SlugText(s)
    ensures ApplyRows(s, from, to) == s
  {
    forall i | from <= i < to
      ensures TableRow(i).0[0] !in s
    {
      assert Row(TableRow(i));
    }
    ApplyRowsUntouched(s, from, to);
  }

  /** Text made of slug characters only is never changed by the table. */
  lemma SlugTextUntouchedByTable(s: string)
    requires SlugText(s)
    ensures Transliterate(s) == s
  {
    SlugTextUntouchedByRows(s, 0, TableSize);
  }

  /**
   * The `%20` row can never match: the `%` row before it removes every `%`,
   * and no row in between writes one back.
   */
  lemma EncodedSpaceRowIsDead(s: string)
    ensures Transliterate(s) == ApplyRows(s, 0, TableSize - 1)
  {
    ApplyRowsSplit(s, 0, TableSize - 1, TableSize);
    ApplyRowsSplit(s, 0, PercentIndex + 1, TableSize - 1);
    ApplyRowsSplit(s, 0, PercentIndex, PercentIndex + 1);
    var t1 := ApplyRows(s, 0, PercentIndex);
    var t2 := ApplyRows(t1, PercentIndex, PercentIndex + 1);
    OneRow(t1, PercentIndex);
    ReplaceAllRemoves(t1, "%", "");
    var t3 := ApplyRows(t2, PercentIndex + 1, TableSize - 1);
    ApplyRowsKeepsOut(t2, PercentIndex + 1, TableSize - 1, '%');
    OneRow(t3, TableSize - 1);
  }

  /** A run of one row is that row's pass; the `%` and `%20` rows sit where the table puts them. */
  lemma OneRow(s: string, i: nat)
    requires i < TableSize
    ensures ApplyRows(s, i, i + 1) == ReplaceAll(s, TableRow(i).0, TableRow(i).1)
    ensures i == PercentIndex ==> TableRow(i) == ("%", "")
    ensures i == TableSize - 1 ==> TableRow(i) == ("%20", "-")
  {
  }

  /** A single-character key that does not occur in `a` leaves `a` alone and moves on. */
  lemma {:induction false} ReplaceAllSkips(a: string, b: string, key: string, rep: string)
    requires |key| == 1 && key[0] !in a
    ensures ReplaceAll(a + b, key, rep) == a + ReplaceAll(b, key, rep)
    decreases |a|
  {
    if a == [] {
      assert a + b == b;
    } else {
      var s := a + b;
      assert s[0] == a[0] && a[0] != key[0];
      assert !(key <= s);
      assert s[1..] == a[1..] + b;
      ReplaceAllSkips(a[1..], b, key, rep);
      calc {
        ReplaceAll(s, key, rep);
        [s[0]] + ReplaceAll(s[1..], key, rep);
        [a[0]] + (a[1..] + ReplaceAll(b, key, rep));
        ([a[0]] + a[1..]) + ReplaceAll(b, key, rep);
        { assert [a[0]] + a[1..] == a; }
        a + ReplaceAll(b, key, rep);
      }
    }
  }

  lemma ReplaceAllLeadingKey(b: string, key: string, rep: string)
    requires key != []
    ensures ReplaceAll(key + b, key, rep) == rep + ReplaceAll(b, key, rep)
  {
    assert key <= key + b;
    assert (key + b)[|key|..] == b;
  }

  lemma SlugTextAppend(a: string, b: string)
    requires SlugText(a) && SlugText(b)
    ensures SlugText(a + b)
  {
    assert forall i :: 0 <= i < |a + b| ==> (a + b)[i] == if i < |a| then a[i] else b[i - |a|];
  }

  /** The `%` pass turns a `%20` between slug text into `20`. */
  lemma PercentPassOnEncodedSpace(a: string, b: string)
    requires SlugText(a) && SlugText(b)
    ensures ReplaceAll(a + "%20" + b, "%", "") == a + "20" + b
  {
    var t := "20" + b;
    EncodedSpaceShape(a, b);
    assert '%' !in a;
    ReplaceAllSkips(a, "%" + t, "%", "");
    ReplaceAllLeadingKey(t, "%", "");
    assert ReplaceAll(t, "%", "") == t by {
      assert SlugText(t) by {
        SlugTextAppend("20", b);
      }
      assert '%' !in t;
    }
  }

  /** How `a%20b` and `a20b` split around the percent sign. */
  lemma EncodedSpaceShape(a: string, b: string)
    ensures a + "%20" + b == a + ("%" + ("20" + b))
    ensures a + "20" + b == a + ("" + ("20" + b))
  {
    assert "%20" == "%" + "20";
  }

  /**
   * The pass order decides what a literal `%20` turns into: the `%` row
   * drops the percent sign first, so `my%20file` becomes `my20file`, not
   * `my-file`.
   */
  lemma EncodedSpaceKeepsDigits(a: string, b: string)
    requires SlugText(a) && SlugText(b)
    ensures Transliterate(a + "%20" + b) == a + "20" + b
  {
    ApplyRowsSplit(a + "%20" + b, 0, PercentIndex + 1, TableSize);
    EncodedSpaceUpToPercent(a, b);
    SlugTextUntouchedByRows(a + "20" + b, PercentIndex + 1, TableSize);
  }

  lemma EncodedSpaceUpToPercent(a: string, b: string)
    requires SlugText(a) && SlugText(b)
    ensures ApplyRows(a + "%20" + b, 0, PercentIndex + 1) == a + "20" + b
    ensures SlugText(a + "20" + b)
  {
    var s := a + "%20" + b;
    ApplyRowsSplit(s, 0, PercentIndex, PercentIndex + 1);
    EncodedSpaceChars(a, b);
    RowsBeforePercentSkip(s);
    assert ApplyRows(s, PercentIndex, PercentIndex + 1) == ReplaceAll(s, "%", "");
    PercentPassOnEncodedSpace(a, b);
    SlugAroundDigits(a, b);
  }

  lemma SlugAroundDigits(a: string, b: string)
    requires SlugText(a) && SlugText(b)
    ensures SlugText(a + "20" + b)
  {
    assert SlugText("20");
    SlugTextAppend(a, "20");
    SlugTextAppend(a + "20", b);
  }

  lemma EncodedSpaceChars(a: string, b: string)
    requires SlugText(a) && SlugText(b)
    ensures forall j :: 0 <= j < |a + "%20" + b| ==> (a + "%20" + b)[j] == '%' || IsSlugChar((a + "%20" + b)[j])
  {
    var s := a + "%20" + b;
    assert forall j :: 0 <= j < |s| ==> s[j] == if j < |a| then a[j] else if j < |a| + 3 then "%20"[j - |a|] else b[j - |a| - 3];
  }

  /** The rows before `%` leave text made of slug characters and `%` alone. */
  lemma RowsBeforePercentSkip(s: string)
    requires forall j :: 0 <= j < |s| ==> s[j] == '%' || IsSlugChar(s[j])
    ensures ApplyRows(s, 0, PercentIndex) == s
  {
    forall i | 0 <= i < PercentIndex
      ensures TableRow(i).0[0] !in s
    {
      assert CharRow(TableRow(i));
    }
    ApplyRowsUntouched(s, 0, PercentIndex);
  }

  /* ---------------------------------------------------------------------- */
  /* The regular-expression passes                                           */
  /* ---------------------------------------------------------------------- */

  /** `preg_replace( '/[^a-z0-9\-]/', '', $s )`. */
  function KeepSlugChars(s: string): (r: string)
    ensures SlugText(r)
    ensures SlugText(s) ==> r == s
  {
    if s == [] then []
    else (if IsSlugChar(s[0]) then [s[0]] else []) + KeepSlugChars(s[1..])
  }

  /** The filter keeps exactly the slug characters of its input. */
  lemma {:induction false} KeepSlugCharsMembers(s: string, c: char)
    ensures c in KeepSlugChars(s) <==> c in s && IsSlugChar(c)
  {
    if s != [] {
      KeepSlugCharsMembers(s[1..], c);
      assert s == [s[0]] + s[1..];
    }
  }

  /** The characters of `s` other than dashes, in order. */
  function Undashed(s: string): string {
    if s == [] then [] else (if s[0] == '-' then [] else [s[0]]) + Undashed(s[1..])
  }

  lemma {:induction false} UndashedAppend(a: string, b: string)
    ensures Undashed(a + b) == Undashed(a) + Undashed(b)
  {
    if a == [] {
      assert a + b == b;
    } else {
      assert (a + b)[1..] == a[1..] + b;
      UndashedAppend(a[1..], b);
    }
  }

  /** `preg_replace( '/-+/', '-', $s )`: every run of dashes becomes one dash. */
  function CollapseDashes(s: string): (r: string)
    ensures NoDoubleDash(r)
    ensures s != [] ==> r != [] && r[0] == s[0] && r[|r| - 1] == s[|s| - 1]
  {
    if |s| < 2 then s
    else if s[0] == '-' && s[1] == '-' then CollapseDashes(s[1..])
    else [s[0]] + CollapseDashes(s[1..])
  }

  /** Collapsing only removes dashes: every other character stays, in order. */
  lemma {:induction false} CollapseDashesUndashed(s: string)
    ensures Undashed(CollapseDashes(s)) == Undashed(s)
  {
    if |s| >= 2 {
      CollapseDashesUndashed(s[1..]);
      if !(s[0] == '-' && s[1] == '-') {
        UndashedAppend([s[0]], CollapseDashes(s[1..]));
      }
    }
  }

  /** Every character of the collapsed text comes from the input. */
  lemma {:induction false} CollapseDashesKeepsSlugText(s: string)
    requires SlugText(s)
    ensures SlugText(CollapseDashes(s))
  {
    if |s| >= 2 {
      CollapseDashesKeepsSlugText(s[1..]);
    }
  }

  /** Text without a double dash is left as it is. */
  lemma {:induction false} CollapseDashesIdentity(s: string)
    requires NoDoubleDash(s)
    ensures CollapseDashes(s) == s
  {
    if |s| >= 2 {
      assert NoDoubleDash(s[1..]);
      CollapseDashesIdentity(s[1..]);
      assert !(s[0] == '-' && s[1] == '-');
      assert s == [s[0]] + s[1..];
    }
  }

  function TrimLeadingDashes(s: string): (r: string)
    ensures |r| <= |s| && r == s[|s| - |r|..]
    ensures r == [] || r[0] != '-'
    ensures Undashed(r) == Undashed(s)
    ensures s == [] || s[0] != '-' ==> r == s
  {
    if s != [] && s[0] == '-' then TrimLeadingDashes(s[1..]) else s
  }

  function TrimTrailingDashes(s: string): (r: string)
    ensures |r| <= |s| && r == s[..|r|]
    ensures r == [] || r[|r| - 1] != '-'
    ensures Undashed(r) == Undashed(s)
    ensures s == [] || s[|s| - 1] != '-' ==> r == s
  {
    if s != [] && s[|s| - 1] == '-' then
      var r := TrimTrailingDashes(s[..|s| - 1]);
      assert s == s[..|s| - 1] + ['-'];
      UndashedAppend(s[..|s| - 1], ['-']);
      r
    else s
  }

  /** `trim( $s, '-' )`. */
  function TrimDashes(s: string): (r: string)
    ensures NoEdgeDash(r)
    ensures SlugText(s) ==> SlugText(r)
    ensures NoDoubleDash(s) ==> NoDoubleDash(r)
    ensures Undashed(r) == Undashed(s)
    ensures NoEdgeDash(s) ==> r == s
  {
    var l := TrimLeadingDashes(s);
    var r := TrimTrailingDashes(l);
    TrimmedEdges(s, l, r);
    SliceKeeps(s, l, r);
    r
  }

  /** Trimming the front and then the back leaves no dash at either end, and nothing to do when there was none. */
  lemma TrimmedEdges(s: string, l: string, r: string)
    requires l == TrimLeadingDashes(s) && r == TrimTrailingDashes(l)
    ensures NoEdgeDash(r)
    ensures NoEdgeDash(s) ==> r == s
  {
    if r != [] {
      assert r[0] == l[0];
    }
  }

  /** A piece cut from the middle of `s` keeps its character set and its lack of double dashes. */
  lemma SliceKeeps(s: string, l: string, r: string)
    requires |l| <= |s| && l == s[|s| - |l|..]
    requires |r| <= |l| && r == l[..|r|]
    ensures SlugText(s) ==> SlugText(r)
    ensures NoDoubleDash(s) ==> NoDoubleDash(r)
  {
    var off := |s| - |l|;
    assert forall i :: 0 <= i < |r| ==> r[i] == s[off + i];
  }

  /* ---------------------------------------------------------------------- */
  /* clean_filename                                                           */
  /* ---------------------------------------------------------------------- */

  /**
   * `clean_filename`: the table, then the host's `remove_accents`
   * (a parameter here), `strtolower`, the character filter, dash collapsing
   * and trimming. Whatever the input and whatever `remove_accents` does,
   * the result is a slug, possibly empty.
   */
  function CleanFilename(filename: string, removeAccents: string -> string): (r: string)
    ensures IsSlug(r)
  {
    AfterTable(Transliterate(filename), removeAccents)
  }

  /** The passes that follow the table. */
  function AfterTable(t: string, removeAccents: string -> string): (r: string)
    ensures IsSlug(r)
  {
    CollapseDashesKeepsSlugText(KeepSlugChars(LowerAscii(removeAccents(t))));
    TrimDashes(CollapseDashes(KeepSlugChars(LowerAscii(removeAccents(t)))))
  }

  /**
   * The host's `remove_accents` returns text without bytes above 0x7F as it
   * is; only that much of it is assumed.
   */
  ghost predicate KeepsAscii(removeAccents: string -> string) {
    forall t :: IsAscii(t) ==> removeAccents(t) == t
  }

  lemma SlugIsAscii(s: string)
    requires SlugText(s)
    ensures IsAscii(s)
  {
    forall i | 0 <= i < |s|
      ensures s[i] < 128 as char
    {
      assert IsSlugChar(s[i]);
    }
  }

  /** The passes after the table leave a slug alone. */
  lemma AfterTableKeepsSlugs(s: string, removeAccents: string -> string)
    requires IsSlug(s) && KeepsAscii(removeAccents)
    ensures AfterTable(s, removeAccents) == s
  {
    SlugIsAscii(s);
    assert removeAccents(s) == s;
    assert LowerAscii(s) == s by {
      assert forall i :: 0 <= i < |s| ==> IsSlugChar(s[i]) && !IsAsciiUpper(s[i]);
    }
    assert KeepSlugChars(s) == s;
    CollapseDashesIdentity(s);
  }

  /** A stem that is already a slug comes back unchanged. */
  lemma CleanFilenameKeepsSlugs(s: string, removeAccents: string -> string)
    requires IsSlug(s) && KeepsAscii(removeAccents)
    ensures CleanFilename(s, removeAccents) == s
  {
    SlugTextUntouchedByTable(s);
    AfterTableKeepsSlugs(s, removeAccents);
  }

  /** Cleaning a cleaned stem changes nothing. */
  lemma CleanFilenameIdempotent(s: string, removeAccents: string -> string)
    requires KeepsAscii(removeAccents)
    ensures CleanFilename(CleanFilename(s, removeAccents), removeAccents) == CleanFilename(s, removeAccents)
  {
    CleanFilenameKeepsSlugs(CleanFilename(s, removeAccents), removeAccents);
  }

  /** `my%20file` is cleaned to `my20file`: a `%20` inside a slug becomes `20`. */
  lemma CleanFilenameEncodedSpace(a: string, b: string, removeAccents: string -> string)
    requires IsSlug(a + "20" + b) && KeepsAscii(removeAccents)
    ensures CleanFilename(a + "%20" + b, removeAccents) == a + "20" + b
  {
    var s := a + "20" + b;
    assert SlugText(a) by {
      assert forall i :: 0 <= i < |a| ==> a[i] == s[i];
    }
    assert SlugText(b) by {
      assert forall i :: 0 <= i < |b| ==> b[i] == s[|a| + 2 + i];
    }
    EncodedSpaceKeepsDigits(a, b);
    AfterTableKeepsSlugs(s, removeAccents);
  }

  /* ---------------------------------------------------------------------- */
  /* A worked example: `Säsongens Rapport (Final)`                            */
  /* ---------------------------------------------------------------------- */

  /** Text made of ASCII letters, either case. */
  predicate AsciiLetters(w: string) {
    forall c :: c in w ==> IsAsciiLower(c) || IsAsciiUpper(c)
  }

  /** The symbol keys are printable ASCII characters other than letters. */
  lemma SymbolKeys(i: nat)
    requires 248 <= i < 278
    ensures ' ' < TableRow(i).0[0] <= '\U{7f}' && !IsAsciiUpper(TableRow(i).0[0])
  {
    if i < 252 {
      SymbolsBeforePercentKeys(i - 248);
    } else if i > 252 {
      AsciiSymbolsKeys(i - 253);
    }
  }

  lemma SymbolsBeforePercentKeys(i: nat)
    requires i < 4
    ensures ' ' < SymbolsBeforePercent(i).key <= '\U{7f}' && !IsAsciiUpper(SymbolsBeforePercent(i).key)
  {
  }

  lemma AsciiSymbolsKeys(i: nat)
    requires i < 25
    ensures ' ' < AsciiSymbols(i).key <= '\U{7f}' && !IsAsciiUpper(AsciiSymbols(i).key)
  {
  }

  /** The last five rows: tab, newline, carriage return, underscore and `%20`. */
  lemma LastRowKeys(i: nat)
    requires 295 <= i < TableSize
    ensures TableRow(i).0[0] in "\t\n\r_%"
  {
  }

  /** The characters of the example at any stage: ASCII letters, spaces, dashes and parentheses. */
  predicate PlainChar(c: char) {
    IsAsciiLower(c) || IsAsciiUpper(c) || c == ' ' || c == '-' || c == '(' || c == ')'
  }

  predicate PlainText(s: string) {
    forall c :: c in s ==> PlainChar(c)
  }

  /** The letter and typographic rows leave text of plain characters alone. */
  lemma WideRowsSkip(s: string, from: nat, to: nat)
    requires from <= to && (to <= 248 || (278 <= from && to <= 294))
    requires PlainText(s)
    ensures ApplyRows(s, from, to) == s
  {
    forall i | from <= i < to
      ensures TableRow(i).0[0] !in s
    {
    }
    ApplyRowsUntouched(s, from, to);
  }

  /** The symbol rows leave text of ASCII letters, dashes and spaces alone. */
  lemma SymbolRowsSkip(s: string, from: nat, to: nat)
    requires 248 <= from <= to <= 278
    requires PlainText(s) && '(' !in s && ')' !in s
    ensures ApplyRows(s, from, to) == s
  {
    forall i | from <= i < to
      ensures TableRow(i).0[0] !in s
    {
      SymbolKeys(i);
    }
    ApplyRowsUntouched(s, from, to);
  }

  /** The last five rows leave text of ASCII letters and dashes alone. */
  lemma LastRowsSkip(s: string)
    requires PlainText(s) && ' ' !in s && '(' !in s && ')' !in s
    ensures ApplyRows(s, 295, TableSize) == s
  {
    forall i | 295 <= i < TableSize
      ensures TableRow(i).0[0] !in s
    {
      LastRowKeys(i);
    }
    ApplyRowsUntouched(s, 295, TableSize);
  }

  /** The table opens with `å`, `Å` and `ä`. */
  lemma FirstRows()
    ensures TableRow(0).0 == "\U{e5}" && TableRow(1).0 == "\U{c5}"
    ensures TableRow(2) == ("\U{e4}", "a")
  {
  }

  /** Where the table lists the parentheses and the space. */
  lemma ParenAndSpaceRows()
    ensures TableRow(255) == ("(", "") && TableRow(256) == (")", "")
    ensures TableRow(294) == (" ", "-")
  {
  }

  /** The seven symbol rows before the parentheses name neither of them. */
  lemma SymbolsBeforeParenKeys()
    ensures forall i :: 248 <= i < 255 ==> TableRow(i).0[0] !in "()"
  {
  }

  /** A one-character pass goes through six leading pieces that do not hold its key. */
  lemma SkipPieces(a: string, b: string, c: string, d: string, e: string, f: string, rest: string, key: string, rep: string)
    requires |key| == 1
    requires key[0] !in a && key[0] !in b && key[0] !in c && key[0] !in d && key[0] !in e && key[0] !in f
    ensures ReplaceAll(a + (b + (c + (d + (e + (f + rest))))), key, rep)
      == a + (b + (c + (d + (e + (f + ReplaceAll(rest, key, rep))))))
  {
    ReplaceAllSkips(f, rest, key, rep);
    ReplaceAllSkips(e, f + rest, key, rep);
    ReplaceAllSkips(d, e + (f + rest), key, rep);
    ReplaceAllSkips(c, d + (e + (f + rest)), key, rep);
    ReplaceAllSkips(b, c + (d + (e + (f + rest))), key, rep);
    ReplaceAllSkips(a, b + (c + (d + (e + (f + rest)))), key, rep);
  }

  /** Letters, then a letter, then plain text, make plain text. */
  lemma PlainPrefix(w: string, a: string, r: string)
    requires AsciiLetters(w) && AsciiLetters(a) && PlainText(r)
    ensures PlainText(w + (a + r))
  {
  }

  /** The text after the `ä`, with its spaces and parentheses. */
  lemma ParenWords(w2: string, w3: string, w4: string)
    requires AsciiLetters(w2) && AsciiLetters(w3) && AsciiLetters(w4)
    ensures PlainText(w2 + (" " + (w3 + (" " + ("(" + (w4 + ")"))))))
  {
  }

  /** The text once the parentheses are gone. */
  lemma SpacedWords(w1: string, w2: string, w3: string, w4: string)
    requires AsciiLetters(w1) && AsciiLetters(w2) && AsciiLetters(w3) && AsciiLetters(w4)
    ensures var s := w1 + ("a" + (w2 + (" " + (w3 + (" " + w4)))));
      PlainText(s) && '(' !in s && ')' !in s
  {
  }

  /** The text once the spaces are dashes. */
  lemma DashedWords(w1: string, w2: string, w3: string, w4: string)
    requires AsciiLetters(w1) && AsciiLetters(w2) && AsciiLetters(w3) && AsciiLetters(w4)
    ensures var s := w1 + ("a" + (w2 + ("-" + (w3 + ("-" + w4)))));
      PlainText(s) && ' ' !in s && '(' !in s && ')' !in s
  {
  }

  /** Rows 0 to 2: `å` and `Å` are absent, and the one `ä` becomes `a`. */
  lemma ExampleAccentRows(w1: string, r: string)
    requires AsciiLetters(w1) && PlainText(r)
    ensures ApplyRows(w1 + ("\U{e4}" + r), 0, 3) == w1 + ("a" + r)
  {
    var s := w1 + ("\U{e4}" + r);
    FirstRows();
    forall i | 0 <= i < 2
      ensures TableRow(i).0[0] !in s
    {
      assert TableRow(i).0[0] !in w1 && TableRow(i).0[0] !in r;
    }
    ApplyRowsUntouched(s, 0, 2);
    ApplyRowsSplit(s, 0, 2, 3);
    OneRow(s, 2);
    ReplaceAllSkips(w1, "\U{e4}" + r, "\U{e4}", "a");
    ReplaceAllLeadingKey(r, "\U{e4}", "a");
  }

  /** Rows 248 to 254 (`&`, `@`, `#`, `$`, `%`, `^`, `*`) find nothing in text of letters, spaces and parentheses. */
  lemma ExampleSymbolsBeforeParens(s: string)
    requires PlainText(s)
    ensures ApplyRows(s, 248, 255) == s
  {
    SymbolsBeforeParenKeys();
    forall i | 248 <= i < 255
      ensures TableRow(i).0[0] !in s
    {
      SymbolKeys(i);
    }
    ApplyRowsUntouched(s, 248, 255);
  }

  /** Row 255 drops the opening parenthesis. */
  lemma ExampleOpenParenRow(w1: string, w2: string, w3: string, w4: string)
    requires AsciiLetters(w1) && AsciiLetters(w2) && AsciiLetters(w3) && AsciiLetters(w4)
    ensures ApplyRows(w1 + ("a" + (w2 + (" " + (w3 + (" " + ("(" + (w4 + ")"))))))), 255, 256)
      == w1 + ("a" + (w2 + (" " + (w3 + (" " + (w4 + ")"))))))
  {
    var s := w1 + ("a" + (w2 + (" " + (w3 + (" " + ("(" + (w4 + ")")))))));
    ParenAndSpaceRows();
    OneRow(s, 255);
    SkipPieces(w1, "a", w2, " ", w3, " ", "(" + (w4 + ")"), "(", "");
    ReplaceAllLeadingKey(w4 + ")", "(", "");
    assert "" + (w4 + ")") == w4 + ")";
  }

  /** Row 256 drops the closing parenthesis. */
  lemma ExampleCloseParenRow(w1: string, w2: string, w3: string, w4: string)
    requires AsciiLetters(w1) && AsciiLetters(w2) && AsciiLetters(w3) && AsciiLetters(w4)
    ensures ApplyRows(w1 + ("a" + (w2 + (" " + (w3 + (" " + (w4 + ")")))))), 256, 257)
      == w1 + ("a" + (w2 + (" " + (w3 + (" " + w4)))))
  {
    var t := w1 + ("a" + (w2 + (" " + (w3 + (" " + (w4 + ")"))))));
    ParenAndSpaceRows();
    OneRow(t, 256);
    SkipPieces(w1, "a", w2, " ", w3, " ", w4 + ")", ")", "");
    ReplaceAllSkips(w4, ")", ")", "");
    ReplaceAllLeadingKey("", ")", "");
    assert ")" + "" == ")" && w4 + "" == w4;
  }

  /** Row 294 turns each space into a dash. */
  lemma ExampleSpaceRow(w1: string, w2: string, w3: string, w4: string)
    requires AsciiLetters(w1) && AsciiLetters(w2) && AsciiLetters(w3) && AsciiLetters(w4)
    ensures ApplyRows(w1 + ("a" + (w2 + (" " + (w3 + (" " + w4))))), 294, 295)
      == w1 + ("a" + (w2 + ("-" + (w3 + ("-" + w4)))))
  {
    var s := w1 + ("a" + (w2 + (" " + (w3 + (" " + w4)))));
    ParenAndSpaceRows();
    OneRow(s, 294);
    ReplaceAllSkips(w1, "a" + (w2 + (" " + (w3 + (" " + w4)))), " ", "-");
    ReplaceAllSkips("a", w2 + (" " + (w3 + (" " + w4))), " ", "-");
    ReplaceAllSkips(w2, " " + (w3 + (" " + w4)), " ", "-");
    ReplaceAllLeadingKey(w3 + (" " + w4), " ", "-");
    ReplaceAllSkips(w3, " " + w4, " ", "-");
    ReplaceAllLeadingKey(w4, " ", "-");
  }

  /** Rows 0 to 254: the `ä` becomes `a` and nothing else changes. */
  lemma ExampleFirstRows(w1: string, r: string)
    requires AsciiLetters(w1) && PlainText(r)
    ensures ApplyRows(w1 + ("\U{e4}" + r), 0, 255) == w1 + ("a" + r)
  {
    var s0 := w1 + ("\U{e4}" + r);
    var s1 := w1 + ("a" + r);
    PlainPrefix(w1, "a", r);
    WideRowsSkip(s1, 3, 248);
    ExampleSymbolsBeforeParens(s1);
    ExampleAccentRows(w1, r);
    ApplyRowsSplit(s0, 0, 3, 255);
    ApplyRowsSplit(s1, 3, 248, 255);
  }

  /** Rows 257 to 299: the spaces become dashes and nothing else changes. */
  lemma ExampleLastRows(w1: string, w2: string, w3: string, w4: string)
    requires AsciiLetters(w1) && AsciiLetters(w2) && AsciiLetters(w3) && AsciiLetters(w4)
    ensures ApplyRows(w1 + ("a" + (w2 + (" " + (w3 + (" " + w4))))), 257, TableSize)
      == w1 + ("a" + (w2 + ("-" + (w3 + ("-" + w4)))))
  {
    var s3 := w1 + ("a" + (w2 + (" " + (w3 + (" " + w4)))));
    SpacedWords(w1, w2, w3, w4);
    DashedWords(w1, w2, w3, w4);
    LastRowsSkip(w1 + ("a" + (w2 + ("-" + (w3 + ("-" + w4))))));
    SymbolRowsSkip(s3, 257, 278);
    WideRowsSkip(s3, 278, 294);
    ExampleSpaceRow(w1, w2, w3, w4);
    ApplyRowsSplit(s3, 257, 278, TableSize);
    ApplyRowsSplit(s3, 278, 294, TableSize);
    ApplyRowsSplit(s3, 294, 295, TableSize);
  }

  /**
   * The table on a stem shaped like `Säsongens Rapport (Final)`: the `ä`
   * becomes `a`, the parentheses go, the spaces become dashes, and the
   * letters are left for the later passes.
   */
  lemma TransliterateExample(w1: string, w2: string, w3: string, w4: string)
    requires AsciiLetters(w1) && AsciiLetters(w2) && AsciiLetters(w3) && AsciiLetters(w4)
    ensures Transliterate(w1 + ("\U{e4}" + (w2 + (" " + (w3 + (" " + ("(" + (w4 + ")"))))))))
      == w1 + ("a" + (w2 + ("-" + (w3 + ("-" + w4)))))
  {
    var r := w2 + (" " + (w3 + (" " + ("(" + (w4 + ")")))));
    var s1 := w1 + ("a" + r);
    var s2 := w1 + ("a" + (w2 + (" " + (w3 + (" " + (w4 + ")"))))));
    ParenWords(w2, w3, w4);
    ExampleFirstRows(w1, r);
    ExampleOpenParenRow(w1, w2, w3, w4);
    ExampleCloseParenRow(w1, w2, w3, w4);
    ExampleLastRows(w1, w2, w3, w4);
    ApplyRowsSplit(w1 + ("\U{e4}" + r), 0, 255, TableSize);
    ApplyRowsSplit(s1, 255, 256, TableSize);
    ApplyRowsSplit(s2, 256, 257, TableSize);
  }

  /** The integration tests' example stem, split into the pieces the table treats alike. */
  lemma ExamplePieces()
    ensures "S\U{e4}songens Rapport (Final)"
      == "S" + ("\U{e4}" + ("songens" + (" " + ("Rapport" + (" " + ("(" + ("Final" + ")")))))))
  {
  }

  lemma ExampleJoined()
    ensures "S" + ("a" + ("songens" + ("-" + ("Rapport" + ("-" + "Final"))))) == "Sasongens-Rapport-Final"
  {
  }

  lemma ExampleWords()
    ensures AsciiLetters("S") && AsciiLetters("songens") && AsciiLetters("Rapport") && AsciiLetters("Final")
  {
  }

  lemma ExampleAscii()
    ensures IsAscii("Sasongens-Rapport-Final")
  {
  }

  lemma ExampleLower()
    ensures LowerAscii("Sasongens-Rapport-Final") == "sasongens-rapport-final"
  {
  }

  lemma ExampleSlug()
    ensures IsSlug("sasongens-rapport-final")
  {
  }

  /** The stem of `Säsongens Rapport (Final).pdf` is cleaned to `sasongens-rapport-final`. */
  lemma CleanFilenameExample(removeAccents: string -> string)
    requires KeepsAscii(removeAccents)
    ensures CleanFilename("S\U{e4}songens Rapport (Final)", removeAccents) == "sasongens-rapport-final"
  {
    ExamplePieces();
    ExampleWords();
    TransliterateExample("S", "songens", "Rapport", "Final");
    ExampleJoined();
    var t := "Sasongens-Rapport-Final";
    var u := "sasongens-rapport-final";
    ExampleAscii();
    ExampleLower();
    ExampleSlug();
    assert removeAccents(t) == t;
    CollapseDashesIdentity(u);
  }

  /* ---------------------------------------------------------------------- */
  /* clean_filename_on_upload                                                 */
  /* ---------------------------------------------------------------------- */

  /** The MIME types the `images` setting lets through. */
  function ImageMimeTypes(): seq<string> {
    [ "image/gif", "image/jpeg", "image/pjpeg", "image/png", "image/tiff",
      "image/avif", "image/webp", "image/svg+xml", "image/bmp", "image/heic" ]
  }

  /** The fields of the upload array the filter reads and writes. */
  datatype UploadFile = UploadFile(name: string, mimeType: string, tmpName: string, error: int, size: int)

  /** Index of the last `c` in `s`, or -1. */
  function LastIndexOf(s: string, c: char): (i: int)
    ensures -1 <= i < |s|
    ensures i >= 0 ==> s[i] == c
    ensures forall j :: i < j < |s| ==> s[j] != c
  {
    if s == [] then -1 else if s[|s| - 1] == c then |s| - 1 else LastIndexOf(s[..|s| - 1], c)
  }

  function StripTrailingSlashes(p: string): (r: string)
    ensures r == [] || r[|r| - 1] != '/'
  {
    if p != [] && p[|p| - 1] == '/' then StripTrailingSlashes(p[..|p| - 1]) else p
  }

  /** PHP `basename`: the last `/`-separated component, ignoring trailing slashes. */
  function Basename(p: string): (r: string)
    ensures '/' !in r
  {
    var t := StripTrailingSlashes(p);
    t[LastIndexOf(t, '/') + 1..]
  }

  /** `pathinfo( $p )['filename']`: the basename up to its last dot. */
  function PathStem(p: string): (r: string)
    ensures '/' !in r
  {
    var b := Basename(p);
    var d := LastIndexOf(b, '.');
    if d < 0 then b else b[..d]
  }

  /** `pathinfo( $p )['extension']`, set only when the basename has a dot. */
  function PathExtension(p: string): (r: Option<string>)
    ensures r.Some? ==> '.' !in r.value && '/' !in r.value
  {
    var b := Basename(p);
    var d := LastIndexOf(b, '.');
    if d < 0 then None else Some(b[d + 1..])
  }

  lemma PathInfoSplitsBasename(p: string)
    ensures PathExtension(p).Some? ==> Basename(p) == PathStem(p) + "." + PathExtension(p).value
    ensures PathExtension(p).None? ==> Basename(p) == PathStem(p) && '.' !in Basename(p)
  {
    var b := Basename(p);
    var d := LastIndexOf(b, '.');
    if d >= 0 {
      assert b == b[..d] + "." + b[d + 1..];
    } else {
      assert forall j :: 0 <= j < |b| ==> b[j] != '.';
    }
  }

  /** `'images' === $file_types`, reading the setting as `clean_filename_on_upload` does. */
  predicate ImagesOnly(options: map<Key, Value>) {
    Get(Section(options, "media"), "clean_filenames_types") == Str("images")
  }

  /** The type gate: in `images` mode only the listed MIME types are cleaned. */
  predicate SkippedType(options: map<Key, Value>, file: UploadFile) {
    ImagesOnly(options) && file.mimeType !in ImageMimeTypes()
  }

  /** Whether the upload is cleaned at all: the type gate and the non-empty stem. */
  predicate CleansUpload(options: map<Key, Value>, file: UploadFile) {
    !SkippedType(options, file) && !Empty(Str(PathStem(file.name)))
  }

  /** `'file-' . time()`. */
  function FallbackStem(now: nat): string {
    "file-" + NatToString(now)
  }

  lemma FallbackStemIsSlug(now: nat)
    ensures FallbackStem(now) != [] && IsSlug(FallbackStem(now))
  {
    var d := NatToString(now);
    var f := FallbackStem(now);
    assert forall i :: 5 <= i < |f| ==> f[i] == d[i - 5] && IsAsciiDigit(f[i]);
    assert forall i :: 0 <= i < 5 ==> f[i] == "file-"[i];
  }

  /** The stem written back: the cleaned one, or the fallback when that is PHP-empty. */
  function StemOrFallback(cleaned: string, now: nat): (r: string)
    ensures IsSlug(cleaned) ==> r != [] && IsSlug(r)
    ensures cleaned != "" && cleaned != "0" ==> r == cleaned
  {
    if Empty(Str(cleaned)) then
      FallbackStemIsSlug(now);
      FallbackStem(now)
    else cleaned
  }

  /** The upload array `clean_filename_on_upload` returns. */
  function CleanedUpload(options: map<Key, Value>, file: UploadFile, removeAccents: string -> string, now: nat): UploadFile {
    if CleansUpload(options, file) then Renamed(file, CleanFilename(PathStem(file.name), removeAccents), now)
    else file
  }

  /** The upload renamed to the cleaned stem (or the fallback) and the lower-cased extension. */
  function Renamed(file: UploadFile, cleaned: string, now: nat): UploadFile {
    file.(name := StemOrFallback(cleaned, now) + "." + LowerAscii(PathExtension(file.name).GetOr("")))
  }

  /** In `images` mode a file of any other MIME type comes back untouched. */
  lemma NonImagesUntouched(options: map<Key, Value>, file: UploadFile, removeAccents: string -> string, now: nat)
    requires ImagesOnly(options) && file.mimeType !in ImageMimeTypes()
    ensures CleanedUpload(options, file, removeAccents, now) == file
  {
  }

  /** A PHP-empty stem (`''` or `'0'`, as in `.pdf` or `0.jpg`) leaves the file untouched. */
  lemma EmptyStemUntouched(options: map<Key, Value>, file: UploadFile, removeAccents: string -> string, now: nat)
    requires PathStem(file.name) == "" || PathStem(file.name) == "0"
    ensures CleanedUpload(options, file, removeAccents, now) == file
  {
    assert Empty(Str(PathStem(file.name)));
  }

  /**
   * Otherwise only the name changes: a non-empty slug, a dot and the
   * lower-cased extension (empty when the name had none).
   */
  lemma CleanedUploadShape(options: map<Key, Value>, file: UploadFile, removeAccents: string -> string, now: nat)
    requires CleansUpload(options, file)
    ensures var r := CleanedUpload(options, file, removeAccents, now);
      && r == file.(name := r.name)
      && exists stem, ext ::
           && r.name == stem + "." + ext
           && stem != [] && IsSlug(stem)
           && ext == LowerAscii(PathExtension(file.name).GetOr(""))
  {
    var r := CleanedUpload(options, file, removeAccents, now);
    var cleaned := CleanFilename(PathStem(file.name), removeAccents);
    var stem := StemOrFallback(cleaned, now);
    var ext := LowerAscii(PathExtension(file.name).GetOr(""));
    assert r == Renamed(file, cleaned, now);
    assert r.name == stem + "." + ext;
  }

  /** A name without a dot gets an empty extension after the dot: `report` becomes `report.`. */
  lemma NoExtensionKeepsDot(options: map<Key, Value>, file: UploadFile, removeAccents: string -> string, now: nat)
    requires CleansUpload(options, file) && '.' !in Basename(file.name)
    ensures var n := CleanedUpload(options, file, removeAccents, now).name;
      n != [] && n[|n| - 1] == '.'
  {
    assert LastIndexOf(Basename(file.name), '.') == -1;
    assert PathExtension(file.name) == None;
    var cleaned := CleanFilename(PathStem(file.name), removeAccents);
    assert CleanedUpload(options, file, removeAccents, now) == Renamed(file, cleaned, now);
    assert Renamed(file, cleaned, now).name == StemOrFallback(cleaned, now) + "." + LowerAscii("");
  }

  /* ---------------------------------------------------------------------- */
  /* Host state: the transient and attachment titles                          */
  /* ---------------------------------------------------------------------- */

  /** The host state the two callbacks touch. */
  class MediaLibrary {
    /** The `_admin_clean_up_original_filename` transient. */
    var originalFilename: Option<string>
    /** Attachment post titles by post id. */
    var titles: map<int, string>

    constructor ()
      ensures originalFilename == None && titles == map[]
    {
      originalFilename := None;
      titles := map[];
    }
  }

  /** The stem an upload is renamed to: the cleaned stem, or `file-<time>` when that is PHP-empty. */
  method CleanStem(filename: string, removeAccents: string -> string, now: nat) returns (cleaned: string)
    ensures cleaned == StemOrFallback(CleanFilename(filename, removeAccents), now)
  {
    cleaned := CleanFilename(filename, removeAccents);
    if Empty(Str(cleaned)) {
      cleaned := FallbackStem(now);
    }
  }

  /** `clean_filename_on_upload`: remembers the raw stem, returns the renamed upload. */
  method CleanFilenameOnUpload(library: MediaLibrary, options: map<Key, Value>, file: UploadFile,
                               removeAccents: string -> string, now: nat) returns (r: UploadFile)
    modifies library`originalFilename
    ensures r == CleanedUpload(options, file, removeAccents, now)
    ensures library.originalFilename ==
      (if CleansUpload(options, file) then Some(PathStem(file.name)) else old(library.originalFilename))
  {
    r := file;
    if !SkippedType(options, file) {
      var filename := PathStem(file.name);
      var extension := LowerAscii(PathExtension(file.name).GetOr(""));
      if !Empty(Str(filename)) {
        library.originalFilename := Some(filename);
        var cleaned := CleanStem(filename, removeAccents, now);
        r := file.(name := cleaned + "." + extension);
      }
    }
  }

  /** PHP `ucwords` word delimiters: space, tab, CR, LF, form feed, vertical tab. */
  predicate IsWordDelimiter(c: char) {
    c == ' ' || c == '\t' || c == '\r' || c == '\n' || c == '\U{0c}' || c == '\U{0b}'
  }

  /** `ucwords`, scanning left to right; `atStart` says the previous character ended a word. */
  function Ucwords(s: string, atStart: bool := true): (r: string)
    ensures |r| == |s|
    ensures forall i :: 0 <= i < |s| ==>
      r[i] == (if (if i == 0 then atStart else IsWordDelimiter(s[i - 1])) then ToUpperChar(s[i]) else s[i])
  {
    if s == [] then [] else [if atStart then ToUpperChar(s[0]) else s[0]] + Ucwords(s[1..], IsWordDelimiter(s[0]))
  }

  /** `str_replace( [ '-', '_' ], ' ', $s )`. */
  function DashesToSpaces(s: string): (r: string)
    ensures |r| == |s|
    ensures forall i :: 0 <= i < |s| ==> r[i] == (if s[i] == '-' || s[i] == '_' then ' ' else s[i])
  {
    if s == [] then [] else [if s[0] == '-' || s[0] == '_' then ' ' else s[0]] + DashesToSpaces(s[1..])
  }

  /** The character loop is the two `str_replace` passes, the dash pass first. */
  lemma {:induction false} DashesToSpacesIsStrReplace(s: string)
    ensures DashesToSpaces(s) == ReplaceAll(ReplaceAll(s, "-", " "), "_", " ")
  {
    if s != [] {
      DashesToSpacesIsStrReplace(s[1..]);
      ReplaceAllCharStep(s, '-', ' ');
      var m := ReplaceAll(s, "-", " ");
      ReplaceAllCharStep(m, '_', ' ');
      assert m[1..] == ReplaceAll(s[1..], "-", " ");
    }
  }

  /** A one-character replacement handles the first character, then the rest. */
  lemma ReplaceAllCharStep(s: string, k: char, rep: char)
    requires s != []
    ensures ReplaceAll(s, [k], [rep]) == [if s[0] == k then rep else s[0]] + ReplaceAll(s[1..], [k], [rep])
  {
    assert [k] <= s <==> s[0] == k;
  }

  /** The title `restore_original_title` gives an attachment uploaded as `stem`. */
  function AttachmentTitle(stem: string): (r: string)
    ensures |r| == |stem|
    ensures forall i :: 0 <= i < |r| ==> r[i] != '-' && r[i] != '_'
  {
    var spaced := DashesToSpaces(stem);
    var r := Ucwords(spaced, true);
    forall i | 0 <= i < |r|
      ensures r[i] != '-' && r[i] != '_'
    {
      var c := spaced[i];
      assert c != '-' && c != '_';
      var upper := if i == 0 then true else IsWordDelimiter(spaced[i - 1]);
      assert r[i] == if upper then ToUpperChar(c) else c;
    }
    r
  }

  /**
   * A lower-case letter that starts a word of the stem (at its start or
   * after `-`, `_` or whitespace) is capitalised; every other character
   * other than `-` and `_` is kept: `my-photo_2` becomes `My Photo 2`.
   */
  lemma AttachmentTitleCapitalises(stem: string, i: int)
    requires 0 <= i < |stem|
    ensures var starts := i == 0 || stem[i - 1] == '-' || stem[i - 1] == '_' || IsWordDelimiter(stem[i - 1]);
      var r := AttachmentTitle(stem);
      && (stem[i] == '-' || stem[i] == '_' ==> r[i] == ' ')
      && (starts && IsAsciiLower(stem[i]) ==> IsAsciiUpper(r[i]))
      && (!starts && stem[i] != '-' && stem[i] != '_' ==> r[i] == stem[i])
  {
    var spaced := DashesToSpaces(stem);
    var r := Ucwords(spaced, true);
    assert AttachmentTitle(stem) == r;
    var c := spaced[i];
    assert c == if stem[i] == '-' || stem[i] == '_' then ' ' else stem[i];
    var upper := if i == 0 then true else IsWordDelimiter(spaced[i - 1]);
    if i > 0 {
      assert spaced[i - 1] == if stem[i - 1] == '-' || stem[i - 1] == '_' then ' ' else stem[i - 1];
    }
    assert r[i] == if upper then ToUpperChar(c) else c;
  }

  /** `restore_original_title`: a truthy transient becomes the title, then is deleted. */
  method RestoreOriginalTitle(library: MediaLibrary, attachmentId: int)
    modifies library
    ensures match old(library.originalFilename)
      case Some(stem) =>
        if Truthy(Str(stem)) then
          library.titles == old(library.titles)[attachmentId := AttachmentTitle(stem)] &&
          library.originalFilename == None
        else unchanged(library)
      case None => unchanged(library)
  {
    match library.originalFilename
    case Some(stem) =>
      if Truthy(Str(stem)) {
        library.titles := library.titles[attachmentId := AttachmentTitle(stem)];
        library.originalFilename := None;
      }
    case None =>
  }

  /** The constructor: the two prefilters and the `add_attachment` action, when enabled. */
  function UploadHooks(options: map<Key, Value>): (r: seq<Registration>)
    ensures r != [] <==> Flag(Section(options, "media"), "clean_filenames")
  {
    if Flag(Section(options, "media"), "clean_filenames") then
      [ OnFilter("wp_handle_upload_prefilter", "clean_filename_on_upload"),
        OnFilter("wp_handle_sideload_prefilter", "clean_filename_on_upload"),
        OnAction("add_attachment", "restore_original_title") ]
    else []
  }

  method RegisterUploadHooks(host: Host, options: map<Key, Value>)
    modifies host
    ensures host.registrations == old(host.registrations) + UploadHooks(options)
    ensures host.removals == old(host.removals)
  {
    if Flag(Section(options, "media"), "clean_filenames") {
      host.Add(OnFilter("wp_handle_upload_prefilter", "clean_filename_on_upload"));
      host.Add(OnFilter("wp_handle_sideload_prefilter", "clean_filename_on_upload"));
      host.Add(OnAction("add_attachment", "restore_original_title"));
    }
  }
}
