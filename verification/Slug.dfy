/** Slugs: the names customers and pipelines have inside component IDs. */
module Slug {
  predicate Alphanumeric(c: char) { 'a' <= c <= 'z' || '0' <= c <= '9' }

  predicate ValidSlug(s: string) {
    && 3 <= |s| <= 64 && Alphanumeric(s[0]) && Alphanumeric(s[|s| - 1])
    && forall i :: 0 <= i < |s| ==> Alphanumeric(s[i]) || s[i] == '-'
  }

  /** One lower-cased rune written to the builder: a run of other characters becomes one hyphen, none at the start. */
  function Write(b: string, r: char): string {
    if Alphanumeric(r) then b + [r]
    else if b == [] || b[|b| - 1] == '-' then b
    else b + ['-']
  }

  function Squash(runes: string): string {
    if runes == [] then [] else Write(Squash(runes[..|runes| - 1]), runes[|runes| - 1])
  }

  function TrimLeft(s: string): string { if s != [] && s[0] == '-' then TrimLeft(s[1..]) else s }

  function TrimRight(s: string): string { if s != [] && s[|s| - 1] == '-' then TrimRight(s[..|s| - 1]) else s }

  function Trim(s: string): string { TrimRight(TrimLeft(s)) }

  function Cut(s: string): string { if |s| > 64 then Trim(s[..64]) else s }

  function Pad(s: string): string {
    if s == "" then "customer" else if |s| == 1 then s + "00" else if |s| == 2 then s + "0" else s
  }

  function Slug(runes: string): string { Pad(Cut(Trim(Squash(runes)))) }

  method WriteRunes(runes: string) returns (b: string)
    ensures b == Squash(runes)
  {
    b := "";
    var lastHyphen := true;
    for i := 0 to |runes|
      invariant b == Squash(runes[..i])
      invariant lastHyphen <==> (b == [] || b[|b| - 1] == '-')
    {
      assert runes[..i + 1][..i] == runes[..i];
      var r := runes[i];
      if ('a' <= r <= 'z') || ('0' <= r <= '9') {
        b := b + [r];
        lastHyphen := false;
      } else if !lastHyphen {
        b := b + ['-'];
        lastHyphen := true;
      }
    }
    assert runes[..|runes|] == runes;
  }

  /** The name lower-cased character by character; `lower` is the case table. */
  function Lowered(name: string, lower: char -> char): string {
    seq(|name|, i requires 0 <= i < |name| => lower(name[i]))
  }

  method DeriveSlug(name: string, lower: char -> char) returns (s: string)
    ensures s == Slug(Lowered(name, lower)) && ValidSlug(s)
  {
    hide Squash, Trim, ValidSlug;
    var runes := Lowered(name, lower);
    var b := WriteRunes(runes);
    s := Trim(b);
    if |s| > 64 {
      s := Trim(s[..64]);
    }
    ghost var cut := s;
    while |s| < 3
      invariant Pad(s) == Pad(cut)
      decreases 3 - |s|
    {
      if s == "" {
        s := "customer";
        break;
      }
      s := s + "0";
    }
    SlugIsValid(runes);
  }

  /** Letters, digits and hyphens, none of them first, no two hyphens together. */
  predicate Tidy(s: string) {
    && (forall i :: 0 <= i < |s| ==> Alphanumeric(s[i]) || s[i] == '-')
    && (s != [] ==> s[0] != '-')
    && forall i :: 0 <= i < |s| - 1 ==> s[i] == '-' ==> s[i + 1] != '-'
  }

  lemma {:induction false} SquashTidy(runes: string)
    ensures Tidy(Squash(runes))
  {
    if runes == [] {
    } else {
      SquashTidy(runes[..|runes| - 1]);
    }
  }

  lemma {:induction false} TrimTidy(s: string)
    requires Tidy(s)
    ensures Trim(s) == TrimRight(s) && Tidy(TrimRight(s)) && TrimRight(s) <= s
    ensures TrimRight(s) != [] ==> TrimRight(s)[|TrimRight(s)| - 1] != '-'
    ensures s != [] ==> TrimRight(s) != []
    ensures s != [] && s[|s| - 1] != '-' ==> TrimRight(s) == s
    decreases |s|
  {
    if s != [] && s[|s| - 1] == '-' {
      var t := s[..|s| - 1];
      assert Tidy(t);
      assert t[|t| - 1] != '-';
    }
  }

  /** A tidy text cut to length, with nothing but letters and digits at its ends. */
  predicate Trimmed(s: string) { Tidy(s) && |s| <= 64 && (s != [] ==> s[|s| - 1] != '-') }

  lemma CutTrimmed(runes: string)
    ensures Trimmed(Cut(Trim(Squash(runes))))
  {
    SquashTidy(runes);
    var s := Squash(runes);
    TrimTidy(s);
    var t := Trim(s);
    if |t| > 64 {
      assert Tidy(t[..64]);
      TrimTidy(t[..64]);
    }
  }

  lemma PadValid(s: string)
    requires Trimmed(s)
    ensures ValidSlug(Pad(s)) && Tidy(Pad(s))
  {
  }

  /** Every name, whatever its characters, gets a valid slug. */
  lemma SlugIsValid(runes: string)
    ensures ValidSlug(Slug(runes)) && Tidy(Slug(runes))
  {
    hide ValidSlug, Tidy, Pad;
    CutTrimmed(runes);
    PadValid(Cut(Trim(Squash(runes))));
  }

  lemma {:induction false} SquashKeepsTidy(s: string)
    requires Tidy(s)
    ensures Squash(s) == s
  {
    if s == [] {
    } else {
      var t := s[..|s| - 1];
      assert Tidy(t);
      SquashKeepsTidy(t);
      assert s == t + [s[|s| - 1]];
    }
  }

  /** The slugs that name themselves are the valid ones without doubled hyphens. */
  lemma FixedSlugs(s: string)
    ensures Slug(s) == s <==> ValidSlug(s) && Tidy(s)
  {
    SlugIsValid(s);
    if ValidSlug(s) && Tidy(s) {
      SquashKeepsTidy(s);
      TrimTidy(s);
    }
  }

  /** Deriving a slug from a slug changes nothing. */
  lemma SlugIdempotent(runes: string)
    ensures Slug(Slug(runes)) == Slug(runes)
  {
    SlugIsValid(runes);
    FixedSlugs(Slug(runes));
  }

  // ---------------------------------------------------------------- words

  /** The maximal runs of letters and digits, in order. */
  function Words(runes: string): (ws: seq<string>)
    ensures runes != [] && Alphanumeric(runes[|runes| - 1]) ==> ws != []
  {
    if runes == [] then []
    else
      var before, r := runes[..|runes| - 1], runes[|runes| - 1];
      var ws := Words(before);
      if !Alphanumeric(r) then ws
      else if before != [] && Alphanumeric(before[|before| - 1]) then ws[|ws| - 1 := ws[|ws| - 1] + [r]]
      else ws + [[r]]
  }

  /** The words with a hyphen between each two. */
  function Joined(ws: seq<string>): string {
    if ws == [] then "" else if |ws| == 1 then ws[0] else Joined(ws[..|ws| - 1]) + "-" + ws[|ws| - 1]
  }

  predicate SomeLetters(ws: seq<string>) {
    forall i :: 0 <= i < |ws| ==> ws[i] != [] && forall j :: 0 <= j < |ws[i]| ==> Alphanumeric(ws[i][j])
  }

  lemma {:induction false} WordsOfLetters(runes: string)
    ensures SomeLetters(Words(runes))
  {
    if runes == [] {
    } else {
      WordsOfLetters(runes[..|runes| - 1]);
    }
  }

  lemma JoinedGrows(ws: seq<string>, r: char)
    ensures ws != [] ==> Joined(ws[|ws| - 1 := ws[|ws| - 1] + [r]]) == Joined(ws) + [r]
    ensures Joined(ws + [[r]]) == if ws == [] then [r] else Joined(ws) + "-" + [r]
  {
    assert (ws + [[r]])[..|ws|] == ws;
    if |ws| > 1 {
      var grown := ws[|ws| - 1 := ws[|ws| - 1] + [r]];
      assert grown[..|ws| - 1] == ws[..|ws| - 1];
      assert Joined(grown) == Joined(ws[..|ws| - 1]) + "-" + (ws[|ws| - 1] + [r]);
    }
  }

  lemma JoinedEnds(ws: seq<string>)
    requires ws != [] && SomeLetters(ws)
    ensures Joined(ws) != [] && Alphanumeric(Joined(ws)[|Joined(ws)| - 1])
  {
    var last := ws[|ws| - 1];
    if |ws| > 1 {
      assert Joined(ws) == Joined(ws[..|ws| - 1]) + "-" + last;
      assert Joined(ws)[|Joined(ws)| - 1] == last[|last| - 1];
    }
  }

  /** What has been written is the words so far, with a hyphen when something else followed them. */
  lemma {:induction false} SquashJoins(runes: string)
    ensures var ws := Words(runes);
            Squash(runes)
            == if ws != [] && !Alphanumeric(runes[|runes| - 1]) then Joined(ws) + "-" else Joined(ws)
  {
    if runes == [] {
    } else {
      var before, r := runes[..|runes| - 1], runes[|runes| - 1];
      var ws := Words(before);
      SquashJoins(before);
      WordsOfLetters(before);
      JoinedGrows(ws, r);
      hide Joined;
      if ws != [] {
        JoinedEnds(ws);
      }
    }
  }

  /**
   The slug of a name is its words joined by hyphens: cut to 64 characters, or 63 where the cut would end in a
   hyphen, padded with zeros to three characters, and "customer" for a name without any.
   */
  lemma SlugJoinsWords(runes: string)
    ensures var text, slug := Joined(Words(runes)), Slug(runes);
            && (3 <= |text| <= 64 ==> slug == text)
            && (|text| > 64 ==> slug == if text[63] == '-' then text[..63] else text[..64])
            && (|text| == 2 ==> slug == text + "0") && (|text| == 1 ==> slug == text + "00")
            && (text == "" ==> slug == "customer" && forall i :: 0 <= i < |runes| ==> !Alphanumeric(runes[i]))
  {
    hide Joined, Words, Squash, Trim, Cut;
    TrimsToWords(runes);
    CutText(Joined(Words(runes)));
    if Joined(Words(runes)) == "" {
      NoWords(runes);
    }
  }

  lemma TrimsToWords(runes: string)
    ensures var text := Joined(Words(runes));
            Trim(Squash(runes)) == text && Tidy(text) && (text == "" <==> Words(runes) == [])
  {
    var text, squashed := Joined(Words(runes)), Squash(runes);
    SquashJoins(runes);
    WordsOfLetters(runes);
    SquashTidy(runes);
    if Words(runes) != [] {
      JoinedEnds(Words(runes));
    }
    hide Joined, Words, Squash;
    TrimTidy(squashed);
    if squashed == text + "-" {
      assert squashed[..|squashed| - 1] == text;
      TrimTidy(text);
      TidyPrefix(squashed, |text|);
    }
  }

  lemma CutText(text: string)
    requires Tidy(text)
    ensures Cut(text) == if |text| <= 64 then text else if text[63] == '-' then text[..63] else text[..64]
  {
    if |text| > 64 {
      TidyPrefix(text, 64);
      TrimTidy(text[..64]);
      assert text[..64][..63] == text[..63];
    }
  }

  lemma TidyPrefix(s: string, n: nat)
    requires Tidy(s) && n <= |s|
    ensures Tidy(s[..n])
  {
  }

  lemma {:induction false} NoWords(runes: string)
    requires Words(runes) == []
    ensures forall i :: 0 <= i < |runes| ==> !Alphanumeric(runes[i])
  {
    if runes == [] {
    } else {
      NoWords(runes[..|runes| - 1]);
    }
  }

  lemma NoUnderscore(s: string)
    requires ValidSlug(s)
    ensures '_' !in s && '/' !in s
  {
  }
}
