/** The colour part of marker icons: how `addMarker` and `rerenderIcons`
    turn the data description's colour into the name of a marker icon. */
module Colors {
  import opened Values

  /** Whether `pat` occurs in `s` at index `i`. */
  predicate OccursAt(s: string, pat: string, i: nat) {
    i + |pat| <= |s| && s[i..i + |pat|] == pat
  }

  /** An occurrence at index `j >= 1` is an occurrence in the tail at `j - 1`. */
  lemma OccursInTail(s: string, pat: string, j: nat)
    requires 1 <= j && s != []
    ensures OccursAt(s, pat, j) <==> OccursAt(s[1..], pat, j - 1)
  {
    if j + |pat| <= |s| {
      assert s[1..][j - 1..j - 1 + |pat|] == s[j..j + |pat|];
    }
  }

  /** The index of the first occurrence of `pat` in `s`. */
  function FindFirst(s: string, pat: string): (r: Option<nat>)
    requires pat != []
    ensures r.Some? ==> OccursAt(s, pat, r.value)
    ensures r.Some? ==> forall j :: 0 <= j < r.value ==> !OccursAt(s, pat, j)
    ensures r.None? ==> forall j :: 0 <= j ==> !OccursAt(s, pat, j)
    decreases |s|
  {
    if |s| < |pat| then None
    else if s[..|pat|] == pat then Some(0)
    else
      var tail := FindFirst(s[1..], pat);
      assert forall j: nat :: 1 <= j ==> (OccursAt(s, pat, j) <==> OccursAt(s[1..], pat, j - 1)) by {
        forall j: nat | 1 <= j { OccursInTail(s, pat, j); }
      }
      match tail
      case None => None
      case Some(k) => Some(k + 1)
  }

  /** `s.replace(pat, rep)` with a string pattern: only the first occurrence
      is replaced. */
  function ReplaceFirst(s: string, pat: string, rep: string): (r: string)
    requires pat != []
    ensures FindFirst(s, pat).None? ==> r == s
    ensures FindFirst(s, pat).Some? ==>
      var i := FindFirst(s, pat).value;
      && |r| == |s| - |pat| + |rep|
      && r[..i] == s[..i] && r[i..i + |rep|] == rep && r[i + |rep|..] == s[i + |pat|..]
  {
    match FindFirst(s, pat)
    case None => s
    case Some(i) => s[..i] + rep + s[i + |pat|..]
  }

  predicate IsLower(c: char) { 'a' <= c <= 'z' }

  /** `s.toUpperCase()` on ASCII letters. */
  function Upper(s: string): (r: string)
    ensures |r| == |s|
    ensures forall i :: 0 <= i < |r| ==> !IsLower(r[i])
    ensures forall i :: 0 <= i < |r| && !IsLower(s[i]) ==> r[i] == s[i]
    ensures forall i :: 0 <= i < |r| && IsLower(s[i]) ==>
              'A' <= r[i] <= 'Z' && r[i] as int - 'A' as int == s[i] as int - 'a' as int
  {
    seq(|s|, i requires 0 <= i < |s| => if IsLower(s[i]) then s[i] - 'a' as char + 'A' as char else s[i])
  }

  /** The icon colour `addMarker` derives (Worldmap2d.js:820-822); a colour
      with none of the three patterns' first characters is used as it is. */
  function MarkerColor(col: string): (r: string)
    ensures '#' !in col && 'G' !in col && '8' !in col ==> r == col
  {
    var r := ReplaceFirst(ReplaceFirst(ReplaceFirst(col, "#", ""), "GREY", "7B7B7B"), "808080", "7B7B7B");
    assert '#' !in col && 'G' !in col && '8' !in col ==> r == col by {
      if '#' !in col && 'G' !in col && '8' !in col {
        ReplaceAbsent(col, "#", "");
        ReplaceAbsent(col, "GREY", "7B7B7B");
        ReplaceAbsent(col, "808080", "7B7B7B");
      }
    }
    r
  }

  /** The icon colour `rerenderIcons` derives (Worldmap2d.js:1357-1363). */
  function RerenderColor(col: string): (r: string)
    ensures forall i :: 0 <= i < |r| ==> !IsLower(r[i])
  {
    var c := if col == "#808080" then "#7B7B7B" else col;
    Upper(ReplaceFirst(ReplaceFirst(c, "#", ""), "GREY", "7B7B7B"))
  }

  /** A string in which `pat` does not occur is left alone by `replace`. */
  lemma ReplaceAbsent(s: string, pat: string, rep: string)
    requires pat != [] && pat[0] !in s
    ensures ReplaceFirst(s, pat, rep) == s
  {
    forall j | 0 <= j ensures !OccursAt(s, pat, j) {
      if j + |pat| <= |s| {
        assert s[j..j + |pat|][0] == s[j] != pat[0];
      }
    }
  }

  /** A string that starts with `pat` has that occurrence replaced. */
  lemma ReplaceAtStart(s: string, pat: string, rep: string)
    requires pat != [] && OccursAt(s, pat, 0)
    ensures ReplaceFirst(s, pat, rep) == rep + s[|pat|..]
  {
    assert FindFirst(s, pat) == Some(0);
  }

  /** A string without lower-case letters is its own upper case. */
  lemma UpperOfUpper(s: string)
    requires forall i :: 0 <= i < |s| ==> !IsLower(s[i])
    ensures Upper(s) == s
  {
  }

  /** The leading `#` is what the first `replace` removes. */
  lemma StripHash(h: string)
    ensures ReplaceFirst("#" + h, "#", "") == h
  {
    var s := "#" + h;
    assert OccursAt(s, "#", 0);
    ReplaceAtStart(s, "#", "");
    assert s[1..] == h;
  }

  /** For `#h` without a `G`, `addMarker` keeps `h` apart from the grey hex. */
  lemma MarkerOfHash(h: string)
    requires 'G' !in h
    ensures MarkerColor("#" + h) == ReplaceFirst(h, "808080", "7B7B7B")
  {
    StripHash(h);
    ReplaceAbsent(h, "GREY", "7B7B7B");
  }

  /** For `#h` without a `G`, other than the grey hex, `rerenderIcons`
      upper-cases `h`. */
  lemma RerenderOfHash(h: string)
    requires 'G' !in h && "#" + h != "#808080"
    ensures RerenderColor("#" + h) == Upper(h)
  {
    StripHash(h);
    ReplaceAbsent(h, "GREY", "7B7B7B");
  }

  // One grey spelling on one path per lemma, so that each proof unfolds the
  // replacements of a single literal.

  lemma MarkerGreyHex()
    ensures MarkerColor("#808080") == "7B7B7B"
  {
    StripHash("808080");
    assert "#" + "808080" == "#808080";
    ReplaceAbsent("808080", "GREY", "7B7B7B");
    ReplaceAtStart("808080", "808080", "7B7B7B");
  }

  lemma MarkerGreyName()
    ensures MarkerColor("GREY") == "7B7B7B"
  {
    ReplaceAbsent("GREY", "#", "");
    ReplaceAtStart("GREY", "GREY", "7B7B7B");
    assert "GREY"[4..] == [];
    assert ReplaceFirst("GREY", "GREY", "7B7B7B") == "7B7B7B";
    ReplaceAbsent("7B7B7B", "808080", "7B7B7B");
  }

  /** `rerenderIcons` first rewrites the grey hex to `#7B7B7B`, whose `#`
      the first `replace` removes. */
  lemma GreyStripped()
    ensures ReplaceFirst("#7B7B7B", "#", "") == "7B7B7B"
  {
    StripHash("7B7B7B");
    assert "#" + "7B7B7B" == "#7B7B7B";
  }

  lemma RerenderGreyHex()
    ensures RerenderColor("#808080") == "7B7B7B"
  {
    GreyStripped();
    ReplaceAbsent("7B7B7B", "GREY", "7B7B7B");
    UpperOfUpper("7B7B7B");
  }

  lemma RerenderGreyName()
    ensures RerenderColor("GREY") == "7B7B7B"
  {
    ReplaceAbsent("GREY", "#", "");
    ReplaceAtStart("GREY", "GREY", "7B7B7B");
    UpperOfUpper("7B7B7B");
  }

  /** The grey synonyms map to the one grey icon that exists, on both paths. */
  lemma GreySynonyms()
    ensures MarkerColor("#808080") == "7B7B7B" && MarkerColor("GREY") == "7B7B7B"
    ensures RerenderColor("#808080") == "7B7B7B" && RerenderColor("GREY") == "7B7B7B"
  {
    MarkerGreyHex();
    MarkerGreyName();
    RerenderGreyHex();
    RerenderGreyName();
  }

  predicate IsUpperHexDigit(c: char) { '0' <= c <= '9' || 'A' <= c <= 'F' }

  lemma UpperHexHasNoG(h: string)
    requires forall i :: 0 <= i < |h| ==> IsUpperHexDigit(h[i])
    ensures 'G' !in h
  {
    forall i | 0 <= i < |h| ensures h[i] != 'G' { assert IsUpperHexDigit(h[i]); }
  }

  /** Six characters other than the grey hex do not contain it. */
  lemma NotGreyHexKept(h: string)
    requires |h| == 6 && h != "808080"
    ensures ReplaceFirst(h, "808080", "7B7B7B") == h
  {
    forall j | 0 <= j ensures !OccursAt(h, "808080", j) {
      if j == 0 { assert h[0..6] == h; }
    }
  }

  lemma NotGreyHash(h: string)
    requires h != "808080"
    ensures "#" + h != "#808080"
  {
    assert ("#" + h)[1..] == h;
  }

  /** Six upper-case hex digits other than the grey hex pass both paths
      unchanged. */
  lemma UpperHexUnchanged(h: string)
    requires |h| == 6 && forall i :: 0 <= i < 6 ==> IsUpperHexDigit(h[i])
    requires h != "808080"
    ensures MarkerColor("#" + h) == h && RerenderColor("#" + h) == h
  {
    UpperHexHasNoG(h);
    NotGreyHash(h);
    MarkerOfHash(h);
    NotGreyHexKept(h);
    RerenderOfHash(h);
    UpperOfUpper(h);
  }

  /** For `#` followed by six upper-case hex digits both paths produce the
      same colour, so a later `rerenderIcons` with an unchanged colour does
      not re-apply the icon `addMarker` made. */
  lemma UpperHexColorsAgree(h: string)
    requires |h| == 6 && forall i :: 0 <= i < 6 ==> IsUpperHexDigit(h[i])
    ensures MarkerColor("#" + h) == RerenderColor("#" + h)
  {
    if h == "808080" {
      assert "#" + h == "#808080";
      GreySynonyms();
    } else {
      UpperHexUnchanged(h);
    }
  }

  predicate IsLowerHexDigit(c: char) { '0' <= c <= '9' || 'a' <= c <= 'f' }

  /** For six lower-case hex digits with a letter among them the two paths
      differ: `addMarker` keeps the case and `rerenderIcons` upper-cases, so
      the first re-render re-applies every such icon although the colour has
      not changed. */
  lemma LowerHexColorsDiffer(h: string, k: nat)
    requires |h| == 6 && forall i :: 0 <= i < 6 ==> IsLowerHexDigit(h[i])
    requires k < 6 && IsLower(h[k])
    ensures MarkerColor("#" + h) == h
    ensures RerenderColor("#" + h) == Upper(h) && Upper(h) != h
  {
    forall i | 0 <= i < |h| ensures h[i] != 'G' { assert IsLowerHexDigit(h[i]); }
    assert h != "808080" by { assert "808080"[k] !in "abcdef"; }
    MarkerOfHash(h);
    NotGreyHexKept(h);
    NotGreyHash(h);
    RerenderOfHash(h);
    assert Upper(h)[k] != h[k];
  }
}
