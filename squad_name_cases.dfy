/**
 * The concrete cases of the proxy's test suite for `formatSquadName`: prefix
 * and suffix qualifiers, table lookups, an already formatted name, an unknown
 * short code and the empty name. Each case is taken through the steps of the
 * function one lemma at a time: strip, clean, expand.
 */
module SquadNameCases {
  import opened Strings
  import opened Normalize

  // ---------------------------------------------------------------------
  // The steps of `FormatSquadName`, for any name

  /** A tidy non-empty board name is expanded from its cleaned form. */
  lemma FormatTidy(b: string)
    requires b != [] && Tidy(b)
    ensures FormatSquadName(b) == ExpandName(b, CleanName(b))
  {
    TrimOfTrimmed(b);
  }

  /** Cleaning is the two strips followed by a trim that changes nothing. */
  lemma CleanSteps(b: string, a: string, c: string)
    requires StripLeadingQualifier(b) == a && StripTrailingQualifier(a) == c && Tidy(c)
    ensures CleanName(b) == c
  {
    TrimOfTrimmed(c);
  }

  /** A name of at most five characters carries no qualifier to strip. */
  lemma ShortUnqualified(t: string)
    requires |t| <= 5
    ensures StripLeadingQualifier(t) == t && StripTrailingQualifier(t) == t
  {
  }

  /** "quadro", a space and a key lose the prefix and the space. */
  lemma StripQuadroKey(b: string, key: string)
    requires key != [] && !IsSpace(key[0]) && b == "quadro " + key
    ensures StripLeadingQualifier(b) == key
  {
    assert b[..6] == "quadro" && ToLower("quadro") == "quadro";
    assert b[6..] == " " + key;
    TrimStartIdle(key);
  }

  /** "Squad", a space and a rest lose the prefix and the space. */
  lemma StripSquadPrefix(b: string, rest: string)
    requires rest != [] && !IsSpace(rest[0]) && b == "Squad " + rest
    ensures StripLeadingQualifier(b) == rest
  {
    assert !LeadingQualifier(b, "quadro") by {
      assert b[..6] == "Squad " && ToLower("Squad ")[0] == 's';
    }
    assert !LeadingQualifier(b, "board") && LeadingQualifier(b, "squad") by {
      assert b[..5] == "Squad" && ToLower("Squad") == "squad";
    }
    assert b[5..] == " " + rest;
    TrimStartIdle(rest);
  }

  /** A code, a space and "board" lose the suffix and the space. */
  lemma StripBoardSuffix(b: string, code: string)
    requires code != [] && !IsSpace(code[|code| - 1]) && b == code + " board"
    ensures StripTrailingQualifier(b) == code
  {
    assert !TrailingQualifier(b, "quadro") by {
      assert b[|b| - 6..] == " board" && ToLower(" board")[0] == ' ';
    }
    assert TrailingQualifier(b, "board") by {
      assert b[|b| - 5..] == "board" && ToLower("board") == "board";
    }
    assert b[..|b| - 5] == code + " ";
    TrimEndIdle(code);
  }

  /** The leading lower-case letters of a lower-case word and a rest are the word. */
  lemma {:induction false} LeadingLowersOf(w: string, rest: string)
    requires forall i :: 0 <= i < |w| ==> IsLowerLetter(w[i])
    requires rest != [] && !IsLowerLetter(rest[0])
    ensures LeadingLowers(w + rest) == w
    decreases |w|
  {
    if w != [] {
      assert (w + rest)[1..] == w[1..] + rest;
      LeadingLowersOf(w[1..], rest);
    } else {
      assert w + rest == rest;
    }
  }

  /** A lower-case word, a space and a capitalised rest match `[a-z]+\s+[A-Z]`. */
  lemma LowerWordThenCapitalOf(r: string, w: string, rest: string)
    requires w != [] && forall i :: 0 <= i < |w| ==> IsLowerLetter(w[i])
    requires rest != [] && IsUpperLetter(rest[0]) && r == w + " " + rest
    ensures LowerWordThenCapital(r)
  {
    assert r == w + (" " + rest);
    LeadingLowersOf(w, " " + rest);
    assert r[|w|..] == " " + rest;
    TrimStartIdle(rest);
  }

  /** "Squad", a space, a lower-case word, a space and a capitalised rest look formatted. */
  lemma LooksFormattedSquad(t: string, w: string, rest: string)
    requires w != [] && forall i :: 0 <= i < |w| ==> IsLowerLetter(w[i])
    requires rest != [] && IsUpperLetter(rest[0]) && t == "Squad " + w + " " + rest
    ensures LooksFormatted(t)
  {
    var r := w + " " + rest;
    LowerWordThenCapitalOf(r, w, rest);
    SquadPrefixLooksFormatted(t, r);
  }

  lemma SquadPrefixLooksFormatted(t: string, r: string)
    requires r != [] && !IsSpace(r[0]) && LowerWordThenCapital(r) && t == "Squad " + r
    ensures LooksFormatted(t)
  {
    var w := "Squad";
    assert t[..5] == w && IsSpace(t[5]) && t[5..] == " " + r;
    TrimStartIdle(r);
  }

  /** A cleaned name whose upper-case form is a key takes the table's value. */
  lemma ExpandListed(trimmed: string, cleaned: string, key: string)
    requires ToUpper(cleaned) == key && key in KeyMappings
    ensures ExpandName(trimmed, cleaned) == KeyMappings[key]
  {
  }

  /** A cleaned name outside the table, of a name already formatted, keeps the name. */
  lemma ExpandFormatted(trimmed: string, cleaned: string)
    requires ToUpper(cleaned) !in KeyMappings && LooksFormatted(trimmed)
    ensures ExpandName(trimmed, cleaned) == trimmed
  {
  }

  /** An unknown short code is shown as a squad of that code. */
  lemma ExpandShortCode(trimmed: string, cleaned: string)
    requires ToUpper(cleaned) !in KeyMappings && !LooksFormatted(trimmed) && IsShortCode(cleaned)
    ensures ExpandName(trimmed, cleaned) == "Squad " + cleaned
  {
  }

  /** The board keys of the cases below, spelled out as table entries. */
  lemma KeyFacts()
    ensures "GH" in KeyMappings && KeyMappings["GH"] == "Growth Hacking"
    ensures "LDC" in KeyMappings && KeyMappings["LDC"] == "Lideranças do CEO"
    ensures "SCC" in KeyMappings && KeyMappings["SCC"] == "Squad CW Cast/CW Class"
    ensures "AO" in KeyMappings && KeyMappings["AO"] == "Agile Onboarding"
    ensures "CONT" in KeyMappings && KeyMappings["CONT"] == "Squad de Content"
    ensures "GWT" in KeyMappings && KeyMappings["GWT"] == "Squad de Growth"
    ensures "CHN" in KeyMappings && KeyMappings["CHN"] == "Squad de Channel"
    ensures "DE CONTENT" !in KeyMappings && "XYZ" !in KeyMappings
  {
  }

  // ---------------------------------------------------------------------
  // The cases

  lemma CleanQuadroGH()
    ensures CleanName("quadro GH") == "GH"
  {
    StripQuadroKey("quadro GH", "GH");
    ShortUnqualified("GH");
    CleanSteps("quadro GH", "GH", "GH");
  }

  lemma ExpandQuadroGH()
    ensures ExpandName("quadro GH", "GH") == "Growth Hacking"
  {
    assert ToUpper("GH") == "GH";
    KeyFacts();
    ExpandListed("quadro GH", "GH", "GH");
  }

  /** "quadro GH" loses its prefix and GH is looked up. */
  lemma FormatQuadroGH()
    ensures FormatSquadName("quadro GH") == "Growth Hacking"
  {
    FormatTidy("quadro GH");
    CleanQuadroGH();
    ExpandQuadroGH();
  }

  lemma CleanQuadroLDC()
    ensures CleanName("quadro LDC") == "LDC"
  {
    StripQuadroKey("quadro LDC", "LDC");
    ShortUnqualified("LDC");
    CleanSteps("quadro LDC", "LDC", "LDC");
  }

  lemma ExpandQuadroLDC()
    ensures ExpandName("quadro LDC", "LDC") == "Lideranças do CEO"
  {
    assert ToUpper("LDC") == "LDC";
    KeyFacts();
    ExpandListed("quadro LDC", "LDC", "LDC");
  }

  /** "quadro LDC" loses its prefix and LDC is looked up. */
  lemma FormatQuadroLDC()
    ensures FormatSquadName("quadro LDC") == "Lideranças do CEO"
  {
    FormatTidy("quadro LDC");
    CleanQuadroLDC();
    ExpandQuadroLDC();
  }

  lemma CleanQuadroAO()
    ensures CleanName("quadro AO") == "AO"
  {
    StripQuadroKey("quadro AO", "AO");
    ShortUnqualified("AO");
    CleanSteps("quadro AO", "AO", "AO");
  }

  lemma ExpandQuadroAO()
    ensures ExpandName("quadro AO", "AO") == "Agile Onboarding"
  {
    assert ToUpper("AO") == "AO";
    KeyFacts();
    ExpandListed("quadro AO", "AO", "AO");
  }

  /** "quadro AO" loses its prefix and AO is looked up. */
  lemma FormatQuadroAO()
    ensures FormatSquadName("quadro AO") == "Agile Onboarding"
  {
    FormatTidy("quadro AO");
    CleanQuadroAO();
    ExpandQuadroAO();
  }

  lemma CleanSCCBoard()
    ensures CleanName("SCC board") == "SCC"
  {
    SCCBoardNoPrefix();
    StripBoardSuffix("SCC board", "SCC");
    CleanSteps("SCC board", "SCC board", "SCC");
  }

  lemma ExpandSCCBoard()
    ensures ExpandName("SCC board", "SCC") == "Squad CW Cast/CW Class"
  {
    assert ToUpper("SCC") == "SCC";
    KeyFacts();
    ExpandListed("SCC board", "SCC", "SCC");
  }

  /** "SCC board" loses its suffix and SCC is looked up. */
  lemma FormatSCCBoard()
    ensures FormatSquadName("SCC board") == "Squad CW Cast/CW Class"
  {
    FormatTidy("SCC board");
    CleanSCCBoard();
    ExpandSCCBoard();
  }

  lemma CleanCONT()
    ensures CleanName("CONT") == "CONT"
  {
    ShortUnqualified("CONT");
    CleanSteps("CONT", "CONT", "CONT");
  }

  lemma ExpandCONT()
    ensures ExpandName("CONT", "CONT") == "Squad de Content"
  {
    assert ToUpper("CONT") == "CONT";
    KeyFacts();
    ExpandListed("CONT", "CONT", "CONT");
  }

  /** The bare key CONT is looked up as it is. */
  lemma FormatCONT()
    ensures FormatSquadName("CONT") == "Squad de Content"
  {
    FormatTidy("CONT");
    CleanCONT();
    ExpandCONT();
  }

  lemma CleanGWT()
    ensures CleanName("GWT") == "GWT"
  {
    ShortUnqualified("GWT");
    CleanSteps("GWT", "GWT", "GWT");
  }

  lemma ExpandGWT()
    ensures ExpandName("GWT", "GWT") == "Squad de Growth"
  {
    assert ToUpper("GWT") == "GWT";
    KeyFacts();
    ExpandListed("GWT", "GWT", "GWT");
  }

  /** The bare key GWT is looked up as it is. */
  lemma FormatGWT()
    ensures FormatSquadName("GWT") == "Squad de Growth"
  {
    FormatTidy("GWT");
    CleanGWT();
    ExpandGWT();
  }

  lemma CleanCHN()
    ensures CleanName("CHN") == "CHN"
  {
    ShortUnqualified("CHN");
    CleanSteps("CHN", "CHN", "CHN");
  }

  lemma ExpandCHN()
    ensures ExpandName("CHN", "CHN") == "Squad de Channel"
  {
    assert ToUpper("CHN") == "CHN";
    KeyFacts();
    ExpandListed("CHN", "CHN", "CHN");
  }

  /** The bare key CHN is looked up as it is. */
  lemma FormatCHN()
    ensures FormatSquadName("CHN") == "Squad de Channel"
  {
    FormatTidy("CHN");
    CleanCHN();
    ExpandCHN();
  }

  lemma CleanSquadDeContent()
    ensures CleanName("Squad de Content") == "de Content"
  {
    StripSquadPrefix("Squad de Content", "de Content");
    DeContentUnqualified();
    CleanSteps("Squad de Content", "de Content", "de Content");
  }

  lemma ExpandSquadDeContent()
    ensures ExpandName("Squad de Content", "de Content") == "Squad de Content"
  {
    SquadDeContentFacts();
    ExpandFormatted("Squad de Content", "de Content");
  }

  /** A name already in the "Squad de X" form is kept as it is. */
  lemma FormatSquadDeContent()
    ensures FormatSquadName("Squad de Content") == "Squad de Content"
  {
    FormatTidy("Squad de Content");
    CleanSquadDeContent();
    ExpandSquadDeContent();
  }

  lemma CleanXYZ()
    ensures CleanName("XYZ") == "XYZ"
  {
    ShortUnqualified("XYZ");
    CleanSteps("XYZ", "XYZ", "XYZ");
  }

  lemma ExpandXYZ()
    ensures ExpandName("XYZ", "XYZ") == "Squad XYZ"
  {
    XYZFacts();
    ExpandShortCode("XYZ", "XYZ");
  }

  /** An unknown short code becomes "Squad" and the code. */
  lemma FormatXYZ()
    ensures FormatSquadName("XYZ") == "Squad XYZ"
  {
    FormatTidy("XYZ");
    CleanXYZ();
    ExpandXYZ();
  }

  /** The empty board name has a name of its own. */
  lemma FormatEmpty()
    ensures FormatSquadName("") == "Unknown Squad"
  {
  }

  /** "SCC board" starts with no qualifier. */
  lemma SCCBoardNoPrefix()
    ensures StripLeadingQualifier("SCC board") == "SCC board"
  {
    var b := "SCC board";
    assert !LeadingQualifier(b, "quadro") by {
      assert b[..6] == "SCC bo" && ToLower("SCC bo")[0] == 's';
    }
    assert !LeadingQualifier(b, "board") && !LeadingQualifier(b, "squad") by {
      assert b[..5] == "SCC b" && ToLower("SCC b")[1] == 'c';
    }
  }

  /** "de Content" ends with no qualifier. */
  lemma DeContentUnqualified()
    ensures StripTrailingQualifier("de Content") == "de Content"
  {
    var a := "de Content";
    assert !TrailingQualifier(a, "quadro") by {
      assert a[4..] == "ontent" && ToLower("ontent")[0] == 'o';
    }
    assert !TrailingQualifier(a, "board") && !TrailingQualifier(a, "squad") by {
      assert a[5..] == "ntent" && ToLower("ntent")[0] == 'n';
    }
  }

  /** "Squad de Content" looks formatted, and "DE CONTENT" is no key. */
  lemma SquadDeContentFacts()
    ensures ToUpper("de Content") !in KeyMappings && LooksFormatted("Squad de Content")
  {
    DeContentNoKey();
    SquadDeContentLooksFormatted();
  }

  lemma DeContentNoKey()
    ensures ToUpper("de Content") !in KeyMappings
  {
    assert ToUpper("de Content") == "DE CONTENT";
    KeyFacts();
  }

  lemma SquadDeContentLooksFormatted()
    ensures LooksFormatted("Squad de Content")
  {
    LooksFormattedSquad("Squad de Content", "de", "Content");
  }

  /**
   * "XYZ" is a short code that is no key, and too short to start with
   * "Squad", "Equipe" or "Time".
   */
  lemma XYZFacts()
    ensures ToUpper("XYZ") !in KeyMappings && IsShortCode("XYZ") && !LooksFormatted("XYZ")
  {
    XYZNoKey();
    XYZNotFormatted();
  }

  lemma XYZNoKey()
    ensures ToUpper("XYZ") !in KeyMappings
  {
    assert ToUpper("XYZ") == "XYZ";
    KeyFacts();
  }

  lemma XYZNotFormatted()
    ensures !LooksFormatted("XYZ")
  {
  }
}
