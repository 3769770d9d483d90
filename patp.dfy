/**
 * The ship-name (@p) check of `Utils.check_patp` (api/utils.py): strip one
 * leading `~`, reject names starting with `doz`, accept a three-letter name
 * that is a suffix syllable, and otherwise accept exactly the names whose
 * `-`-separated segments are all six letters, a prefix syllable followed by
 * a suffix syllable.
 */
module Patp {
  import opened Strings

  // The two syllable tables of api/utils.py, character for character. Each
  // is written as 8 lines of 32 syllables, each line as 4 pieces of 8
  // syllables, so that the verifier can read the characters.
  const Pre00: string := "dozmarbinwansamlitsighid"
  const Pre01: string := "fidlissogdirwacsabwissib"
  const Pre02: string := "rigsoldopmodfoglidhopdar"
  const Pre03: string := "dorlorhodfolrintogsilmir"
  const Pre04: string := "holpaslacrovlivdalsatlib"
  const Pre05: string := "tabhanticpidtorbolfosdot"
  const Pre06: string := "losdilforpilramtirwintad"
  const Pre07: string := "bicdifrocwidbisdasmidlop"
  const Pre08: string := "rilnardapmolsanlocnovsit"
  const Pre09: string := "nidtipsicropwitnatpanmin"
  const Pre10: string := "ritpodmottamtolsavposnap"
  const Pre11: string := "nopsomfinfonbanmorworsip"
  const Pre12: string := "ronnorbotwicsocwatdolmag"
  const Pre13: string := "picdavbidbaltimtasmallig"
  const Pre14: string := "sivtagpadsaldivdactansid"
  const Pre15: string := "fabtarmonranniswolmispal"
  const Pre16: string := "lasdismaprabtobrollatlon"
  const Pre17: string := "nodnavfignomnibpagsopral"
  const Pre18: string := "bilhaddocridmocpacravrip"
  const Pre19: string := "faltodtiltinhapmicfanpat"
  const Pre20: string := "taclabmogsimsonpinlomric"
  const Pre21: string := "tapfirhasbosbatpochactid"
  const Pre22: string := "havsaplindibhosdabbitbar"
  const Pre23: string := "racparloddosbortochilmac"
  const Pre24: string := "tomdigfilfasmithobharmig"
  const Pre25: string := "hinradmashalraglagfadtop"
  const Pre26: string := "mophabnilnosmilfopfamdat"
  const Pre27: string := "noldinhatnacrisfotribhoc"
  const Pre28: string := "nimlarfitwalrapsarnalmos"
  const Pre29: string := "landondanladdovrivbacpol"
  const Pre30: string := "laptalpitnambonrostonfod"
  const Pre31: string := "ponsovnocsorlavmatmipfip"

  const PreLine0: string := Pre00 + Pre01 + Pre02 + Pre03
  const PreLine1: string := Pre04 + Pre05 + Pre06 + Pre07
  const PreLine2: string := Pre08 + Pre09 + Pre10 + Pre11
  const PreLine3: string := Pre12 + Pre13 + Pre14 + Pre15
  const PreLine4: string := Pre16 + Pre17 + Pre18 + Pre19
  const PreLine5: string := Pre20 + Pre21 + Pre22 + Pre23
  const PreLine6: string := Pre24 + Pre25 + Pre26 + Pre27
  const PreLine7: string := Pre28 + Pre29 + Pre30 + Pre31

  const Suf00: string := "zod" + Suf00Tail
  const Suf00Tail: string := "necbudwessevpersutlet"
  const Suf01: string := "fulpensytdurwepserwylsun"
  const Suf02: string := "rypsyxdyrnuphebpeglupdep"
  const Suf03: string := "dysputlughecryttyvsydnex"
  const Suf04: string := "lunmeplutseppesdelsulped"
  const Suf05: string := "temledtulmetwenbynhexfeb"
  const Suf06: string := "pyldulhetmevruttylwydtep"
  const Suf07: string := "besdexsefwycburderneppur"
  const Suf08: string := "rysrebdennutsubpetrulsyn"
  const Suf09: string := "regtydsupsemwynrecmegnet"
  const Suf10: string := "secmulnymtevwebsummutnyx"
  const Suf11: string := "rextebfushepbenmuswyxsym"
  const Suf12: string := "selrucdecwexsyrwetdylmyn"
  const Suf13: string := "mesdetbetbeltuxtugmyrpel"
  const Suf14: string := "syptermebsetdutdegtexsur"
  const Suf15: string := "feltudnuxruxrenwytnubmed"
  const Suf16: string := "lytdusnebrumtynseglyxpun"
  const Suf17: string := "resredfunrevrefmectedrus"
  const Suf18: string := "bexlebduxrynnumpyxrygryx"
  const Suf19: string := "feptyrtustyclegnemfermer"
  const Suf20: string := "tenlusnussyltecmexpubrym"
  const Suf21: string := "tucfyllepdebbermughuttun"
  const Suf22: string := "bylsudpemdevlurdefbusbep"
  const Suf23: string := "runmelpexdytbyttyplevmyl"
  const Suf24: string := "wedducfurfexnulluclenner"
  const Suf25: string := "lexrupnedlecrydlydfenwel"
  const Suf26: string := "nydhusrelrudneshesfetdes"
  const Suf27: string := "retdunlernyrsebhulryllud"
  const Suf28: string := "remlysfynwerrycsugnysnyl"
  const Suf29: string := "lyndyndemluxfedsedbecmun"
  const Suf30: string := "lyrtesmudnytbyrsenwegfyr"
  const Suf31: string := "murtelreptegpecnelnevfes"

  const SufLine1: string := Suf04 + Suf05 + Suf06 + Suf07
  const SufLine2: string := Suf08 + Suf09 + Suf10 + Suf11
  const SufLine3: string := Suf12 + Suf13 + Suf14 + Suf15
  const SufLine4: string := Suf16 + Suf17 + Suf18 + Suf19
  const SufLine5: string := Suf20 + Suf21 + Suf22 + Suf23
  const SufLine6: string := Suf24 + Suf25 + Suf26 + Suf27
  const SufLine7: string := Suf28 + Suf29 + Suf30 + Suf31

  const PrefixTable: string :=
    PreLine0 + PreLine1 + PreLine2 + PreLine3 + PreLine4 + PreLine5 + PreLine6 + PreLine7
  const SuffixTable: string := "zod" + SuffixTail
  const SufLine0Tail: string := Suf00Tail + Suf01 + Suf02 + Suf03
  /** The suffix table after its first syllable, `zod`. */
  const SuffixTail: string :=
    SufLine0Tail + SufLine1 + SufLine2 + SufLine3 + SufLine4 + SufLine5 + SufLine6 + SufLine7

  /** `[t[i:i+3] for i in range(0, len(t), 3)]`; a short tail gives a short last entry. */
  function Syllables(t: string): (r: seq<string>)
    ensures |r| == (|t| + 2) / 3
    ensures forall k :: 0 <= k < |r| && 3 * k + 3 <= |t| ==> r[k] == t[3 * k..3 * k + 3]
  {
    seq((|t| + 2) / 3, k requires 0 <= k < (|t| + 2) / 3 => Slice(t, 3 * k, 3 * k + 3))
  }

  const Prefixes: seq<string> := Syllables(PrefixTable)
  const Suffixes: seq<string> := Syllables(SuffixTable)

  /** The argument of `check_patp`: only a Python `str` can be valid. */
  datatype PyValue = PyStr(s: string) | NotAString

  /** Drops one leading sigil, as `patp[1:]` after `patp.startswith("~")`. */
  function Normalise(s: string): (n: string)
    ensures StartsWith(s, "~") ==> "~" + n == s
    ensures !StartsWith(s, "~") ==> n == s
  {
    if StartsWith(s, "~") then s[1..] else s
  }

  /** A six-letter segment: a syllable of `pre` followed by a syllable of `suf`. */
  predicate IsWordIn(seg: string, pre: seq<string>, suf: seq<string>)
  {
    |seg| == 6 && seg[..3] in pre && seg[3..] in suf
  }

  /**
   * The scan of `check_patp` against the syllable lists `pre` and `suf`:
   * the `doz` test, the three-letter (galaxy) test, and otherwise the
   * early-return loop over the `-`-separated segments.
   */
  predicate CheckPatpIn(v: PyValue, pre: seq<string>, suf: seq<string>)
  {
    match v
    case NotAString => false
    case PyStr(s) =>
      var n := Normalise(s);
      if StartsWith(n, "doz") then false
      else if |n| == 3 then n in suf
      else
        var segs := Split(n, '-');
        forall k :: 0 <= k < |segs| ==> IsWordIn(segs[k], pre, suf)
  }

  /** `Utils.check_patp(patp)` with the two tables of api/utils.py */
  predicate CheckPatp(v: PyValue)
  {
    CheckPatpIn(v, Prefixes, Suffixes)
  }

  /**
   * Reference definition of a well-formed name, independent of how it is
   * scanned: a galaxy syllable, or one or more words joined by `-`.
   */
  ghost predicate IsShipNameIn(n: string, pre: seq<string>, suf: seq<string>)
  {
    (|n| == 3 && n in suf)
    || exists words: seq<string> ::
         |words| >= 1 && Join(words, '-') == n && forall k :: 0 <= k < |words| ==> IsWordIn(words[k], pre, suf)
  }

  ghost predicate IsShipName(n: string)
  {
    IsShipNameIn(n, Prefixes, Suffixes)
  }

  predicate CharsIn(s: string, lo: char, hi: char)
  {
    forall k :: 0 <= k < |s| ==> lo <= s[k] <= hi
  }

  /** Every entry of `t` is three lower-case letters. */
  predicate LetterSyllables(t: seq<string>)
  {
    forall k :: 0 <= k < |t| ==> |t[k]| == 3 && CharsIn(t[k], 'a', 'z')
  }

  lemma Pre00Letters()
    ensures CharsIn(Pre00, 'a', 'z')
  {
  }

  lemma Pre01Letters()
    ensures CharsIn(Pre01, 'a', 'z')
  {
  }

  lemma Pre02Letters()
    ensures CharsIn(Pre02, 'a', 'z')
  {
  }

  lemma Pre03Letters()
    ensures CharsIn(Pre03, 'a', 'z')
  {
  }

  lemma Pre04Letters()
    ensures CharsIn(Pre04, 'a', 'z')
  {
  }

  lemma Pre05Letters()
    ensures CharsIn(Pre05, 'a', 'z')
  {
  }

  lemma Pre06Letters()
    ensures CharsIn(Pre06, 'a', 'z')
  {
  }

  lemma Pre07Letters()
    ensures CharsIn(Pre07, 'a', 'z')
  {
  }

  lemma Pre08Letters()
    ensures CharsIn(Pre08, 'a', 'z')
  {
  }

  lemma Pre09Letters()
    ensures CharsIn(Pre09, 'a', 'z')
  {
  }

  lemma Pre10Letters()
    ensures CharsIn(Pre10, 'a', 'z')
  {
  }

  lemma Pre11Letters()
    ensures CharsIn(Pre11, 'a', 'z')
  {
  }

  lemma Pre12Letters()
    ensures CharsIn(Pre12, 'a', 'z')
  {
  }

  lemma Pre13Letters()
    ensures CharsIn(Pre13, 'a', 'z')
  {
  }

  lemma Pre14Letters()
    ensures CharsIn(Pre14, 'a', 'z')
  {
  }

  lemma Pre15Letters()
    ensures CharsIn(Pre15, 'a', 'z')
  {
  }

  lemma Pre16Letters()
    ensures CharsIn(Pre16, 'a', 'z')
  {
  }

  lemma Pre17Letters()
    ensures CharsIn(Pre17, 'a', 'z')
  {
  }

  lemma Pre18Letters()
    ensures CharsIn(Pre18, 'a', 'z')
  {
  }

  lemma Pre19Letters()
    ensures CharsIn(Pre19, 'a', 'z')
  {
  }

  lemma Pre20Letters()
    ensures CharsIn(Pre20, 'a', 'z')
  {
  }

  lemma Pre21Letters()
    ensures CharsIn(Pre21, 'a', 'z')
  {
  }

  lemma Pre22Letters()
    ensures CharsIn(Pre22, 'a', 'z')
  {
  }

  lemma Pre23Letters()
    ensures CharsIn(Pre23, 'a', 'z')
  {
  }

  lemma Pre24Letters()
    ensures CharsIn(Pre24, 'a', 'z')
  {
  }

  lemma Pre25Letters()
    ensures CharsIn(Pre25, 'a', 'z')
  {
  }

  lemma Pre26Letters()
    ensures CharsIn(Pre26, 'a', 'z')
  {
  }

  lemma Pre27Letters()
    ensures CharsIn(Pre27, 'a', 'z')
  {
  }

  lemma Pre28Letters()
    ensures CharsIn(Pre28, 'a', 'z')
  {
  }

  lemma Pre29Letters()
    ensures CharsIn(Pre29, 'a', 'z')
  {
  }

  lemma Pre30Letters()
    ensures CharsIn(Pre30, 'a', 'z')
  {
  }

  lemma Pre31Letters()
    ensures CharsIn(Pre31, 'a', 'z')
  {
  }

  lemma Suf00Letters()
    ensures CharsIn(Suf00Tail, 'a', 'y')
  {
  }

  lemma Suf01Letters()
    ensures CharsIn(Suf01, 'a', 'y')
  {
  }

  lemma Suf02Letters()
    ensures CharsIn(Suf02, 'a', 'y')
  {
  }

  lemma Suf03Letters()
    ensures CharsIn(Suf03, 'a', 'y')
  {
  }

  lemma Suf04Letters()
    ensures CharsIn(Suf04, 'a', 'y')
  {
  }

  lemma Suf05Letters()
    ensures CharsIn(Suf05, 'a', 'y')
  {
  }

  lemma Suf06Letters()
    ensures CharsIn(Suf06, 'a', 'y')
  {
  }

  lemma Suf07Letters()
    ensures CharsIn(Suf07, 'a', 'y')
  {
  }

  lemma Suf08Letters()
    ensures CharsIn(Suf08, 'a', 'y')
  {
  }

  lemma Suf09Letters()
    ensures CharsIn(Suf09, 'a', 'y')
  {
  }

  lemma Suf10Letters()
    ensures CharsIn(Suf10, 'a', 'y')
  {
  }

  lemma Suf11Letters()
    ensures CharsIn(Suf11, 'a', 'y')
  {
  }

  lemma Suf12Letters()
    ensures CharsIn(Suf12, 'a', 'y')
  {
  }

  lemma Suf13Letters()
    ensures CharsIn(Suf13, 'a', 'y')
  {
  }

  lemma Suf14Letters()
    ensures CharsIn(Suf14, 'a', 'y')
  {
  }

  lemma Suf15Letters()
    ensures CharsIn(Suf15, 'a', 'y')
  {
  }

  lemma Suf16Letters()
    ensures CharsIn(Suf16, 'a', 'y')
  {
  }

  lemma Suf17Letters()
    ensures CharsIn(Suf17, 'a', 'y')
  {
  }

  lemma Suf18Letters()
    ensures CharsIn(Suf18, 'a', 'y')
  {
  }

  lemma Suf19Letters()
    ensures CharsIn(Suf19, 'a', 'y')
  {
  }

  lemma Suf20Letters()
    ensures CharsIn(Suf20, 'a', 'y')
  {
  }

  lemma Suf21Letters()
    ensures CharsIn(Suf21, 'a', 'y')
  {
  }

  lemma Suf22Letters()
    ensures CharsIn(Suf22, 'a', 'y')
  {
  }

  lemma Suf23Letters()
    ensures CharsIn(Suf23, 'a', 'y')
  {
  }

  lemma Suf24Letters()
    ensures CharsIn(Suf24, 'a', 'y')
  {
  }

  lemma Suf25Letters()
    ensures CharsIn(Suf25, 'a', 'y')
  {
  }

  lemma Suf26Letters()
    ensures CharsIn(Suf26, 'a', 'y')
  {
  }

  lemma Suf27Letters()
    ensures CharsIn(Suf27, 'a', 'y')
  {
  }

  lemma Suf28Letters()
    ensures CharsIn(Suf28, 'a', 'y')
  {
  }

  lemma Suf29Letters()
    ensures CharsIn(Suf29, 'a', 'y')
  {
  }

  lemma Suf30Letters()
    ensures CharsIn(Suf30, 'a', 'y')
  {
  }

  lemma Suf31Letters()
    ensures CharsIn(Suf31, 'a', 'y')
  {
  }

  lemma PreLine0Letters()
    ensures CharsIn(PreLine0, 'a', 'z')
  {
    Pre00Letters(); Pre01Letters(); Pre02Letters(); Pre03Letters();
    CharsInAppend(Pre00, Pre01, 'a', 'z');
    CharsInAppend(Pre00 + Pre01, Pre02, 'a', 'z');
    CharsInAppend(Pre00 + Pre01 + Pre02, Pre03, 'a', 'z');
  }

  lemma PreLine1Letters()
    ensures CharsIn(PreLine1, 'a', 'z')
  {
    Pre04Letters(); Pre05Letters(); Pre06Letters(); Pre07Letters();
    CharsInAppend(Pre04, Pre05, 'a', 'z');
    CharsInAppend(Pre04 + Pre05, Pre06, 'a', 'z');
    CharsInAppend(Pre04 + Pre05 + Pre06, Pre07, 'a', 'z');
  }

  lemma PreLine2Letters()
    ensures CharsIn(PreLine2, 'a', 'z')
  {
    Pre08Letters(); Pre09Letters(); Pre10Letters(); Pre11Letters();
    CharsInAppend(Pre08, Pre09, 'a', 'z');
    CharsInAppend(Pre08 + Pre09, Pre10, 'a', 'z');
    CharsInAppend(Pre08 + Pre09 + Pre10, Pre11, 'a', 'z');
  }

  lemma PreLine3Letters()
    ensures CharsIn(PreLine3, 'a', 'z')
  {
    Pre12Letters(); Pre13Letters(); Pre14Letters(); Pre15Letters();
    CharsInAppend(Pre12, Pre13, 'a', 'z');
    CharsInAppend(Pre12 + Pre13, Pre14, 'a', 'z');
    CharsInAppend(Pre12 + Pre13 + Pre14, Pre15, 'a', 'z');
  }

  lemma PreLine4Letters()
    ensures CharsIn(PreLine4, 'a', 'z')
  {
    Pre16Letters(); Pre17Letters(); Pre18Letters(); Pre19Letters();
    CharsInAppend(Pre16, Pre17, 'a', 'z');
    CharsInAppend(Pre16 + Pre17, Pre18, 'a', 'z');
    CharsInAppend(Pre16 + Pre17 + Pre18, Pre19, 'a', 'z');
  }

  lemma PreLine5Letters()
    ensures CharsIn(PreLine5, 'a', 'z')
  {
    Pre20Letters(); Pre21Letters(); Pre22Letters(); Pre23Letters();
    CharsInAppend(Pre20, Pre21, 'a', 'z');
    CharsInAppend(Pre20 + Pre21, Pre22, 'a', 'z');
    CharsInAppend(Pre20 + Pre21 + Pre22, Pre23, 'a', 'z');
  }

  lemma PreLine6Letters()
    ensures CharsIn(PreLine6, 'a', 'z')
  {
    Pre24Letters(); Pre25Letters(); Pre26Letters(); Pre27Letters();
    CharsInAppend(Pre24, Pre25, 'a', 'z');
    CharsInAppend(Pre24 + Pre25, Pre26, 'a', 'z');
    CharsInAppend(Pre24 + Pre25 + Pre26, Pre27, 'a', 'z');
  }

  lemma PreLine7Letters()
    ensures CharsIn(PreLine7, 'a', 'z')
  {
    Pre28Letters(); Pre29Letters(); Pre30Letters(); Pre31Letters();
    CharsInAppend(Pre28, Pre29, 'a', 'z');
    CharsInAppend(Pre28 + Pre29, Pre30, 'a', 'z');
    CharsInAppend(Pre28 + Pre29 + Pre30, Pre31, 'a', 'z');
  }

  lemma SufLine0Letters()
    ensures CharsIn(SufLine0Tail, 'a', 'y')
  {
    Suf00Letters(); Suf01Letters(); Suf02Letters(); Suf03Letters();
    CharsInAppend(Suf00Tail, Suf01, 'a', 'y');
    CharsInAppend(Suf00Tail + Suf01, Suf02, 'a', 'y');
    CharsInAppend(Suf00Tail + Suf01 + Suf02, Suf03, 'a', 'y');
  }

  lemma SufLine1Letters()
    ensures CharsIn(SufLine1, 'a', 'y')
  {
    Suf04Letters(); Suf05Letters(); Suf06Letters(); Suf07Letters();
    CharsInAppend(Suf04, Suf05, 'a', 'y');
    CharsInAppend(Suf04 + Suf05, Suf06, 'a', 'y');
    CharsInAppend(Suf04 + Suf05 + Suf06, Suf07, 'a', 'y');
  }

  lemma SufLine2Letters()
    ensures CharsIn(SufLine2, 'a', 'y')
  {
    Suf08Letters(); Suf09Letters(); Suf10Letters(); Suf11Letters();
    CharsInAppend(Suf08, Suf09, 'a', 'y');
    CharsInAppend(Suf08 + Suf09, Suf10, 'a', 'y');
    CharsInAppend(Suf08 + Suf09 + Suf10, Suf11, 'a', 'y');
  }

  lemma SufLine3Letters()
    ensures CharsIn(SufLine3, 'a', 'y')
  {
    Suf12Letters(); Suf13Letters(); Suf14Letters(); Suf15Letters();
    CharsInAppend(Suf12, Suf13, 'a', 'y');
    CharsInAppend(Suf12 + Suf13, Suf14, 'a', 'y');
    CharsInAppend(Suf12 + Suf13 + Suf14, Suf15, 'a', 'y');
  }

  lemma SufLine4Letters()
    ensures CharsIn(SufLine4, 'a', 'y')
  {
    Suf16Letters(); Suf17Letters(); Suf18Letters(); Suf19Letters();
    CharsInAppend(Suf16, Suf17, 'a', 'y');
    CharsInAppend(Suf16 + Suf17, Suf18, 'a', 'y');
    CharsInAppend(Suf16 + Suf17 + Suf18, Suf19, 'a', 'y');
  }

  lemma SufLine5Letters()
    ensures CharsIn(SufLine5, 'a', 'y')
  {
    Suf20Letters(); Suf21Letters(); Suf22Letters(); Suf23Letters();
    CharsInAppend(Suf20, Suf21, 'a', 'y');
    CharsInAppend(Suf20 + Suf21, Suf22, 'a', 'y');
    CharsInAppend(Suf20 + Suf21 + Suf22, Suf23, 'a', 'y');
  }

  lemma SufLine6Letters()
    ensures CharsIn(SufLine6, 'a', 'y')
  {
    Suf24Letters(); Suf25Letters(); Suf26Letters(); Suf27Letters();
    CharsInAppend(Suf24, Suf25, 'a', 'y');
    CharsInAppend(Suf24 + Suf25, Suf26, 'a', 'y');
    CharsInAppend(Suf24 + Suf25 + Suf26, Suf27, 'a', 'y');
  }

  lemma SufLine7Letters()
    ensures CharsIn(SufLine7, 'a', 'y')
  {
    Suf28Letters(); Suf29Letters(); Suf30Letters(); Suf31Letters();
    CharsInAppend(Suf28, Suf29, 'a', 'y');
    CharsInAppend(Suf28 + Suf29, Suf30, 'a', 'y');
    CharsInAppend(Suf28 + Suf29 + Suf30, Suf31, 'a', 'y');
  }

  lemma CharsInAppend(a: string, b: string, lo: char, hi: char)
    requires CharsIn(a, lo, hi) && CharsIn(b, lo, hi)
    ensures CharsIn(a + b, lo, hi)
  {
  }

  lemma CharsInWiden(s: string)
    requires CharsIn(s, 'a', 'y')
    ensures CharsIn(s, 'a', 'z')
  {
  }

  /** The prefix table is 768 lower-case letters. */
  lemma PrefixTableLetters()
    ensures |PrefixTable| == 768 && CharsIn(PrefixTable, 'a', 'z')
  {
    PreLine0Letters(); PreLine1Letters(); PreLine2Letters(); PreLine3Letters();
    PreLine4Letters(); PreLine5Letters(); PreLine6Letters(); PreLine7Letters();
    var t := PreLine0;
    CharsInAppend(t, PreLine1, 'a', 'z'); t := t + PreLine1;
    CharsInAppend(t, PreLine2, 'a', 'z'); t := t + PreLine2;
    CharsInAppend(t, PreLine3, 'a', 'z'); t := t + PreLine3;
    CharsInAppend(t, PreLine4, 'a', 'z'); t := t + PreLine4;
    CharsInAppend(t, PreLine5, 'a', 'z'); t := t + PreLine5;
    CharsInAppend(t, PreLine6, 'a', 'z'); t := t + PreLine6;
    CharsInAppend(t, PreLine7, 'a', 'z'); t := t + PreLine7;
  }

  /**
   * The suffix table is 768 lower-case letters, and its only `z` is the first
   * letter of `zod`.
   */
  lemma SuffixTableLetters()
    ensures |SuffixTable| == 768 && SuffixTable[..3] == "zod"
    ensures SuffixTable[3..] == SuffixTail && CharsIn(SuffixTail, 'a', 'y')
    ensures CharsIn(SuffixTable, 'a', 'z')
  {
    SufLine0Letters(); SufLine1Letters(); SufLine2Letters(); SufLine3Letters();
    SufLine4Letters(); SufLine5Letters(); SufLine6Letters(); SufLine7Letters();
    var t := SufLine0Tail;
    CharsInAppend(t, SufLine1, 'a', 'y'); t := t + SufLine1;
    CharsInAppend(t, SufLine2, 'a', 'y'); t := t + SufLine2;
    CharsInAppend(t, SufLine3, 'a', 'y'); t := t + SufLine3;
    CharsInAppend(t, SufLine4, 'a', 'y'); t := t + SufLine4;
    CharsInAppend(t, SufLine5, 'a', 'y'); t := t + SufLine5;
    CharsInAppend(t, SufLine6, 'a', 'y'); t := t + SufLine6;
    CharsInAppend(t, SufLine7, 'a', 'y'); t := t + SufLine7;
    CharsInWiden(SuffixTail);
    assert CharsIn("zod", 'a', 'z');
    CharsInAppend("zod", SuffixTail, 'a', 'z');
  }

  /** Every character of a slice of `s` is a character of `s`. */
  lemma CharsInSlice(s: string, i: nat, j: nat, lo: char, hi: char)
    requires i <= j <= |s| && CharsIn(s, lo, hi)
    ensures CharsIn(s[i..j], lo, hi)
  {
  }

  /** A table of `3n` letters in `lo..hi` splits into `n` syllables of three such letters. */
  lemma SyllablesOfLetters(t: string, lo: char, hi: char)
    requires |t| % 3 == 0 && CharsIn(t, lo, hi)
    ensures |Syllables(t)| == |t| / 3
    ensures forall k :: 0 <= k < |t| / 3 ==> |Syllables(t)[k]| == 3 && CharsIn(Syllables(t)[k], lo, hi)
  {
    forall k | 0 <= k < |t| / 3
      ensures CharsIn(Syllables(t)[k], lo, hi)
    {
      CharsInSlice(t, 3 * k, 3 * k + 3, lo, hi);
    }
  }

  /** Dropping a leading syllable shifts the syllable list by one. */
  lemma SyllablesAfterFirst(t: string, tail: string)
    requires t == "zod" + tail && |tail| % 3 == 0
    ensures |Syllables(t)| == |Syllables(tail)| + 1 && Syllables(t)[0] == "zod"
    ensures forall k :: 1 <= k < |Syllables(t)| ==> Syllables(t)[k] == Syllables(tail)[k - 1]
  {
    forall k | 1 <= k < |Syllables(t)|
      ensures Syllables(t)[k] == Syllables(tail)[k - 1]
    {
      assert t[3 * k..3 * k + 3] == tail[3 * (k - 1)..3 * (k - 1) + 3];
    }
  }

  /** api/utils.py:41,45: the prefix table is 256 syllables of three lower-case letters. */
  lemma PrefixSyllables()
    ensures |Prefixes| == 256 && LetterSyllables(Prefixes)
  {
    PrefixTableLetters();
    SyllablesOfLetters(PrefixTable, 'a', 'z');
  }

  lemma ZodFirst()
    ensures Suffixes[0] == "zod"
  {
    SuffixTableLetters();
    SyllablesAfterFirst(SuffixTable, SuffixTail);
  }

  lemma SuffixesAfterZod()
    ensures |Suffixes| == 256
    ensures forall k :: 1 <= k < 256 ==> |Suffixes[k]| == 3 && CharsIn(Suffixes[k], 'a', 'y')
  {
    SuffixTableLetters();
    SyllablesOfLetters(SuffixTail, 'a', 'y');
    SyllablesAfterFirst(SuffixTable, SuffixTail);
  }

  lemma LettersAfterZod(t: seq<string>)
    requires |t| >= 1 && t[0] == "zod"
    requires forall k :: 1 <= k < |t| ==> |t[k]| == 3 && CharsIn(t[k], 'a', 'y')
    ensures LetterSyllables(t)
  {
  }

  /**
   * api/utils.py:42,46: the suffix table is 256 syllables of three lower-case
   * letters; the first is `zod`, and no later one holds a `z`.
   */
  lemma SuffixSyllables()
    ensures |Suffixes| == 256 && LetterSyllables(Suffixes) && Suffixes[0] == "zod"
    ensures forall k :: 1 <= k < 256 ==> CharsIn(Suffixes[k], 'a', 'y')
  {
    ZodFirst();
    SuffixesAfterZod();
    LettersAfterZod(Suffixes);
  }

  /** A word over letter-only tables holds only letters, so it never contains `-`. */
  lemma WordHasNoDash(w: string, pre: seq<string>, suf: seq<string>)
    requires LetterSyllables(pre) && LetterSyllables(suf) && IsWordIn(w, pre, suf)
    ensures '-' !in w
  {
    var p, q := w[..3], w[3..];
    assert w == p + q;
    var i :| 0 <= i < |pre| && pre[i] == p;
    var j :| 0 <= j < |suf| && suf[j] == q;
    forall k | 0 <= k < |w|
      ensures w[k] != '-'
    {
      if k < 3 { assert w[k] == p[k]; } else { assert w[k] == q[k - 3]; }
    }
  }

  lemma JoinAtLeastFirst(parts: seq<string>, sep: char)
    requires |parts| >= 1
    ensures |Join(parts, sep)| >= |parts[0]|
  {
  }

  /**
   * The scan accepts exactly the names, less one sigil, that do not begin
   * with `doz` and are ship names over the same tables.
   */
  lemma CheckPatpInMeaning(s: string, pre: seq<string>, suf: seq<string>)
    requires LetterSyllables(pre) && LetterSyllables(suf)
    ensures CheckPatpIn(PyStr(s), pre, suf) <==>
            !StartsWith(Normalise(s), "doz") && IsShipNameIn(Normalise(s), pre, suf)
  {
    var n := Normalise(s);
    if !StartsWith(n, "doz") {
      if |n| == 3 {
        forall words: seq<string> | |words| >= 1 && Join(words, '-') == n
          ensures !IsWordIn(words[0], pre, suf)
        {
          JoinAtLeastFirst(words, '-');
        }
      } else {
        var segs := Split(n, '-');
        if forall k :: 0 <= k < |segs| ==> IsWordIn(segs[k], pre, suf) {
          JoinSplit(n, '-');
        }
        if exists words: seq<string> ::
             |words| >= 1 && Join(words, '-') == n && forall k :: 0 <= k < |words| ==> IsWordIn(words[k], pre, suf)
        {
          var words: seq<string> :|
            |words| >= 1 && Join(words, '-') == n && forall k :: 0 <= k < |words| ==> IsWordIn(words[k], pre, suf);
          forall k | 0 <= k < |words| ensures '-' !in words[k] {
            WordHasNoDash(words[k], pre, suf);
          }
          SplitJoin(words, '-');
        }
      }
    }
  }

  /** api/utils.py:27-65: what `check_patp` accepts, against the reference definition. */
  lemma CheckPatpMeaning(s: string)
    ensures CheckPatp(PyStr(s)) <==> !StartsWith(Normalise(s), "doz") && IsShipName(Normalise(s))
  {
    PrefixSyllables();
    SuffixSyllables();
    CheckPatpInMeaning(s, Prefixes, Suffixes);
  }

  /** No syllable of a letter-only table starts with a non-letter. */
  lemma NotASyllable(x: string, t: seq<string>)
    requires LetterSyllables(t) && |x| >= 1 && !('a' <= x[0] <= 'z')
    ensures x !in t
  {
    forall k | 0 <= k < |t|
      ensures t[k] != x
    {
      assert t[k][0] != x[0];
    }
  }

  /** A name whose first character, after the sigil, is no letter is rejected. */
  lemma ForeignFirstRejected(n: string, pre: seq<string>, suf: seq<string>)
    requires LetterSyllables(pre) && LetterSyllables(suf)
    requires |n| >= 1 && !('a' <= n[0] <= 'z')
    ensures !CheckPatpIn(PyStr("~" + n), pre, suf)
  {
    var u := "~" + n;
    assert StartsWith(u, "~") && Normalise(u) == n;
    NotASyllable(n, suf);
    if |n| != 3 && !StartsWith(n, "doz") {
      var segs := Split(n, '-');
      if n[0] == '-' {
        SplitLeadingSep(n, '-');
        assert !IsWordIn(segs[0], pre, suf);
      } else {
        assert segs[0][0] == n[0];
        if |segs[0]| == 6 {
          NotASyllable(segs[0][..3], pre);
        }
        assert !IsWordIn(segs[0], pre, suf);
      }
    }
  }

  /**
   * api/utils.py:33-34: exactly one sigil is stripped, so a name and the same
   * name behind one `~` are judged alike, and a second `~` makes any name
   * invalid.
   */
  lemma SigilStripped(n: string)
    ensures !StartsWith(n, "~") ==> (CheckPatp(PyStr("~" + n)) <==> CheckPatp(PyStr(n)))
    ensures !CheckPatp(PyStr("~~" + n))
  {
    var t := "~" + n;
    assert StartsWith(t, "~") && t[1..] == n;
    var u := "~~" + n;
    assert StartsWith(u, "~") && u[1..] == t;
    PrefixSyllables();
    SuffixSyllables();
    assert Split(t, '-')[0][0] == '~';
    ForeignFirstRejected(t, Prefixes, Suffixes);
  }

  /** api/utils.py:29-30: anything that is not a string is invalid. */
  lemma NonStringRejected(pre: seq<string>, suf: seq<string>)
    ensures !CheckPatpIn(NotAString, pre, suf)
  {
  }

  lemma DozFirst()
    ensures Prefixes[0] == "doz"
  {
    PrefixTableLetters();
  }

  /** `doz` is no suffix: the only `z` of the suffix table opens `zod`. */
  lemma DozNotSuffixIn(suf: seq<string>)
    requires |suf| >= 1 && suf[0] == "zod"
    requires forall k :: 1 <= k < |suf| ==> |suf[k]| == 3 && CharsIn(suf[k], 'a', 'y')
    ensures "doz" !in suf
  {
    forall k | 0 <= k < |suf|
      ensures suf[k] != "doz"
    {
      if k == 0 {
        assert suf[k][0] == 'z';
      } else {
        assert suf[k][2] != 'z';
      }
    }
  }

  lemma DozzodIn(pre: seq<string>, suf: seq<string>)
    requires "doz" in pre && "zod" in suf
    ensures IsShipNameIn("dozzod", pre, suf) && !CheckPatpIn(PyStr("dozzod"), pre, suf)
  {
    var w := "dozzod";
    assert w[..3] == "doz" && w[3..] == "zod";
    assert IsWordIn(w, pre, suf);
    assert Join([w], '-') == w;
    assert StartsWith(w, "doz");
  }

  /**
   * api/utils.py:37-38 and 41: `doz` is a prefix syllable, yet the `doz`
   * rule rejects every name that begins with it, including well-formed ones
   * such as `dozzod`; `doz` is not a suffix, so no galaxy is lost.
   */
  lemma DozRule(s: string)
    ensures StartsWith(Normalise(s), "doz") ==> !CheckPatp(PyStr(s))
    ensures "doz" in Prefixes && "doz" !in Suffixes
    ensures IsShipName("dozzod") && !CheckPatp(PyStr("dozzod"))
  {
    DozFirst();
    ZodFirst();
    SuffixesAfterZod();
    DozNotSuffixIn(Suffixes);
    DozzodIn(Prefixes, Suffixes);
  }

  lemma DashFound(n: string)
    requires n == "" || StartsWith(n, "-") || EndsWith(n, "-") || Contains(n, "--")
    ensures n == "" || '-' in n
  {
    if StartsWith(n, "-") {
      assert n[0] == '-';
    } else if EndsWith(n, "-") {
      assert n[|n| - 1] == '-';
    } else if n != "" {
      var i :| 0 <= i <= |n| && StartsWith(n[i..], "--");
      assert n[i] == '-';
    }
  }

  /**
   * api/utils.py:53-63: the empty name, a bare `~`, a leading or trailing
   * `-` and a doubled `-` all leave a segment that is not a word.
   */
  lemma EmptySegmentsRejectedIn(s: string, pre: seq<string>, suf: seq<string>)
    requires LetterSyllables(pre) && LetterSyllables(suf)
    requires var n := Normalise(s);
      n == "" || StartsWith(n, "-") || EndsWith(n, "-") || Contains(n, "--")
    ensures !CheckPatpIn(PyStr(s), pre, suf)
  {
    var n := Normalise(s);
    if |n| == 3 {
      DashFound(n);
      forall k | 0 <= k < |suf|
        ensures suf[k] != n
      {
        var c :| 0 <= c < |n| && n[c] == '-';
        assert suf[k][c] != n[c];
      }
    } else if !StartsWith(n, "doz") {
      var segs := Split(n, '-');
      if n == "" {
        assert segs == [""];
        assert !IsWordIn(segs[0], pre, suf);
      } else if StartsWith(n, "-") {
        SplitLeadingSep(n, '-');
        assert !IsWordIn(segs[0], pre, suf);
      } else if EndsWith(n, "-") {
        SplitTrailingSep(n, '-');
        assert !IsWordIn(segs[|segs| - 1], pre, suf);
      } else {
        var i :| 0 <= i <= |n| && StartsWith(n[i..], "--");
        assert n[i] == '-' && n[i + 1] == '-';
        SplitDoubleSep(n, i, '-');
        var k :| 1 <= k < |segs| && segs[k] == "";
        assert !IsWordIn(segs[k], pre, suf);
      }
    }
  }

  lemma EmptySegmentsRejected(s: string)
    requires var n := Normalise(s);
      n == "" || StartsWith(n, "-") || EndsWith(n, "-") || Contains(n, "--")
    ensures !CheckPatp(PyStr(s))
  {
    PrefixSyllables();
    SuffixSyllables();
    EmptySegmentsRejectedIn(s, Prefixes, Suffixes);
  }

  lemma SliceLeft(a: string, b: string, i: nat, j: nat)
    requires i <= j <= |a|
    ensures (a + b)[i..j] == a[i..j]
  {
  }

  lemma SliceRight(a: string, b: string, i: nat, j: nat)
    requires |a| <= i <= j <= |a| + |b|
    ensures (a + b)[i..j] == b[i - |a|..j - |a|]
  {
  }

  /** Line 0 of the prefix table is its first 96 characters. */
  lemma PrefixLine0(i: nat, j: nat)
    requires i <= j <= 96
    ensures PrefixTable[i..j] == PreLine0[i..j]
  {
    var x := PreLine0;
    SliceLeft(x, PreLine1, i, j); x := x + PreLine1;
    SliceLeft(x, PreLine2, i, j); x := x + PreLine2;
    SliceLeft(x, PreLine3, i, j); x := x + PreLine3;
    SliceLeft(x, PreLine4, i, j); x := x + PreLine4;
    SliceLeft(x, PreLine5, i, j); x := x + PreLine5;
    SliceLeft(x, PreLine6, i, j); x := x + PreLine6;
    SliceLeft(x, PreLine7, i, j);
  }

  /** Line 3 of the prefix table is characters 288-383. */
  lemma PrefixLine3(i: nat, j: nat)
    requires i <= j <= 96
    ensures PrefixTable[288 + i..288 + j] == PreLine3[i..j]
  {
    var x := PreLine0 + PreLine1 + PreLine2;
    assert |x| == 288;
    SliceRight(x, PreLine3, 288 + i, 288 + j); x := x + PreLine3;
    SliceLeft(x, PreLine4, 288 + i, 288 + j); x := x + PreLine4;
    SliceLeft(x, PreLine5, 288 + i, 288 + j); x := x + PreLine5;
    SliceLeft(x, PreLine6, 288 + i, 288 + j); x := x + PreLine6;
    SliceLeft(x, PreLine7, 288 + i, 288 + j);
  }

  /** Line 2 of the suffix table is characters 192-287. */
  lemma SuffixLine2(i: nat, j: nat)
    requires i <= j <= 96
    ensures SuffixTable[192 + i..192 + j] == SufLine2[i..j]
  {
    var x := SufLine0Tail + SufLine1;
    assert |x| == 189;
    SliceRight(x, SufLine2, 189 + i, 189 + j); x := x + SufLine2;
    SliceLeft(x, SufLine3, 189 + i, 189 + j); x := x + SufLine3;
    SliceLeft(x, SufLine4, 189 + i, 189 + j); x := x + SufLine4;
    SliceLeft(x, SufLine5, 189 + i, 189 + j); x := x + SufLine5;
    SliceLeft(x, SufLine6, 189 + i, 189 + j); x := x + SufLine6;
    SliceLeft(x, SufLine7, 189 + i, 189 + j);
    SliceRight("zod", SuffixTail, 192 + i, 192 + j);
  }

  /** Line 3 of the suffix table is characters 288-383. */
  lemma SuffixLine3(i: nat, j: nat)
    requires i <= j <= 96
    ensures SuffixTable[288 + i..288 + j] == SufLine3[i..j]
  {
    var x := SufLine0Tail + SufLine1 + SufLine2;
    assert |x| == 285;
    SliceRight(x, SufLine3, 285 + i, 285 + j); x := x + SufLine3;
    SliceLeft(x, SufLine4, 285 + i, 285 + j); x := x + SufLine4;
    SliceLeft(x, SufLine5, 285 + i, 285 + j); x := x + SufLine5;
    SliceLeft(x, SufLine6, 285 + i, 285 + j); x := x + SufLine6;
    SliceLeft(x, SufLine7, 285 + i, 285 + j);
    SliceRight("zod", SuffixTail, 288 + i, 288 + j);
  }

  lemma SamPal()
    ensures Prefixes[4] == "sam" && Prefixes[127] == "pal"
  {
    assert PreLine0[12..15] == "sam" by {
      assert Pre00[12..15] == "sam";
      SliceLeft(Pre00, Pre01, 12, 15);
      SliceLeft(Pre00 + Pre01, Pre02, 12, 15);
      SliceLeft(Pre00 + Pre01 + Pre02, Pre03, 12, 15);
    }
    assert PreLine3[93..96] == "pal" by {
      assert Pre15[21..24] == "pal";
      SliceRight(Pre12 + Pre13 + Pre14, Pre15, 93, 96);
    }
    PrefixLine0(12, 15);
    PrefixLine3(93, 96);
  }

  lemma PelNet()
    ensures Suffixes[111] == "pel" && Suffixes[79] == "net"
  {
    assert SufLine3[45..48] == "pel" by {
      assert Suf13[21..24] == "pel";
      SliceLeft(Suf12 + Suf13, Suf14, 45, 48);
      SliceLeft(Suf12 + Suf13 + Suf14, Suf15, 45, 48);
      SliceRight(Suf12, Suf13, 45, 48);
    }
    assert SufLine2[45..48] == "net" by {
      assert Suf09[21..24] == "net";
      SliceLeft(Suf08 + Suf09, Suf10, 45, 48);
      SliceLeft(Suf08 + Suf09 + Suf10, Suf11, 45, 48);
      SliceRight(Suf08, Suf09, 45, 48);
    }
    SuffixLine2(45, 48);
    SuffixLine3(45, 48);
  }

  lemma GalaxyExampleIn(pre: seq<string>, suf: seq<string>)
    requires "zod" in suf
    ensures CheckPatpIn(PyStr("~zod"), pre, suf)
  {
    var n := "zod";
    assert Normalise("~zod") == n;
    assert !StartsWith(n, "doz") by { assert n[0] != "doz"[0]; }
  }

  /** A sigil and words joined by `-` pass the scan, unless they make three letters or start with `doz`. */
  lemma AcceptsWords(s: string, words: seq<string>, pre: seq<string>, suf: seq<string>)
    requires |words| >= 1
    requires forall k :: 0 <= k < |words| ==> IsWordIn(words[k], pre, suf) && '-' !in words[k]
    requires s == "~" + Join(words, '-')
    requires var n := Join(words, '-'); |n| != 3 && !StartsWith(n, "doz")
    ensures CheckPatpIn(PyStr(s), pre, suf)
  {
    var n := Join(words, '-');
    assert StartsWith(s, "~") && s[1..] == n;
    SplitJoin(words, '-');
  }

  lemma PlanetExampleIn(pre: seq<string>, suf: seq<string>)
    requires "sam" in pre && "pal" in pre && "pel" in suf && "net" in suf
    ensures CheckPatpIn(PyStr("~sampel-palnet"), pre, suf)
  {
    var words := ["sampel", "palnet"];
    assert "sampel"[..3] == "sam" && "sampel"[3..] == "pel";
    assert "palnet"[..3] == "pal" && "palnet"[3..] == "net";
    assert Join(words, '-') == "sampel-palnet";
    assert !StartsWith("sampel-palnet", "doz") by { assert "sampel-palnet"[0] != "doz"[0]; }
    AcceptsWords("~sampel-palnet", words, pre, suf);
  }

  /** `~zod` (a galaxy) and `~sampel-palnet` (two words) are valid. */
  lemma ValidExamples()
    ensures CheckPatp(PyStr("~zod"))
    ensures CheckPatp(PyStr("~sampel-palnet"))
  {
    ZodFirst();
    SamPal();
    PelNet();
    GalaxyExampleIn(Prefixes, Suffixes);
    PlanetExampleIn(Prefixes, Suffixes);
  }

  /** A nine-letter single segment such as `~sampaltux` is no word. */
  lemma RunTogetherRejectedIn(pre: seq<string>, suf: seq<string>)
    ensures !CheckPatpIn(PyStr("~sampaltux"), pre, suf)
  {
    var n := "sampaltux";
    assert Normalise("~sampaltux") == n;
    assert !StartsWith(n, "doz") by { assert n[0] != "doz"[0]; }
    assert Split(n, '-') == [n] by {
      assert Join([n], '-') == n;
      SplitJoin([n], '-');
    }
    assert !IsWordIn(Split(n, '-')[0], pre, suf);
  }

  lemma GalaxyRuleIn(s: string, pre: seq<string>, suf: seq<string>)
    requires |Normalise(s)| == 3 && "doz" !in suf
    ensures CheckPatpIn(PyStr(s), pre, suf) <==> Normalise(s) in suf
  {
    var n := Normalise(s);
    if StartsWith(n, "doz") {
      assert n == "doz";
    }
  }

  /**
   * api/utils.py:49-50: a name of three characters after the sigil is valid
   * exactly when it is one of the suffix syllables.
   */
  lemma GalaxyRule(s: string)
    requires |Normalise(s)| == 3
    ensures CheckPatp(PyStr(s)) <==> Normalise(s) in Suffixes
  {
    DozRule(s);
    GalaxyRuleIn(s, Prefixes, Suffixes);
  }
}
