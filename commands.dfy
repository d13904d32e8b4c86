/**
 * The regular expressions that grade lab histories and pick simulated
 * terminal output. Each is written twice: `Matches`, a deterministic
 * matcher that takes every whitespace or word run greedily, and `Denotes`,
 * the language of the expression with each backtracking choice as an
 * existential. The lemmas prove the two agree.
 */
module Commands {
  import opened Text
  import opened Wrappers

  /** The command patterns; every one is anchored at the start of the command. */
  datatype Pattern =
      /** `ping`, whitespace, then one of `addresses`. */
    | PingTo(addresses: seq<string>, ignoreCase: bool)
      /** `ping`, whitespace, then a host: letters, digits, dots or hyphens, a dot and at least two letters; ASCII case ignored. */
    | PingDomain
      /** One of `words`, then whitespace. */
    | CommandWord(words: seq<string>, ignoreCase: bool)
      /** `ls`, whitespace, `-l`; when `flagEnds`, the `-l` is followed by whitespace or ends the command. */
    | ListLong(flagEnds: bool)
      /** `chmod`, whitespace, three digits, then a word boundary. */
    | ChmodDigits
      /** `chown`, whitespace, a word, optionally a colon and a word, whitespace, then a non-whitespace character. */
    | ChownOwner
      /** The whole command is `text`. */
    | Exactly(text: string)

  /** `s` starts with the command word `w` followed by the whitespace `s[|w|..j]`. */
  predicate CommandThen(s: string, w: string, ignoreCase: bool, j: int)
  {
    LiteralAt(s, 0, w, ignoreCase) && RunOf(s, |w|, j, Space)
  }

  /** Where the argument starts: past the command word `w` and all the whitespace after it, which must not be empty. */
  function AfterCommand(s: string, w: string, ignoreCase: bool): (r: Option<nat>)
    ensures r.Some? <==> LiteralAt(s, 0, w, ignoreCase) && |w| < |s| && IsSpace(s[|w|])
    ensures r.Some? ==> CommandThen(s, w, ignoreCase, r.value) && (r.value == |s| || !IsSpace(s[r.value]))
  {
    if LiteralAt(s, 0, w, ignoreCase) then
      var j := SpanFrom(s, |w|, Space);
      if |w| < j then Some(j) else None
    else
      None
  }

  /** Any whitespace run after the command word ends where `AfterCommand` says, or earlier inside the same run. */
  lemma AfterCommandLongest(s: string, w: string, ignoreCase: bool, j: int)
    requires CommandThen(s, w, ignoreCase, j)
    ensures AfterCommand(s, w, ignoreCase).Some?
    ensures var k := AfterCommand(s, w, ignoreCase).value; j <= k && AllIn(s, j, k, Space)
    ensures (j == |s| || !IsSpace(s[j])) ==> AfterCommand(s, w, ignoreCase).value == j
  {
    SpanFromMaximal(s, |w|, j, Space);
    if j == |s| || !IsSpace(s[j]) {
      SpanFromExact(s, |w|, j, Space);
    }
  }

  /** A command word followed by a single whitespace character: the argument starts right after it. */
  lemma AfterCommandSingleSpace(s: string, w: string, ignoreCase: bool)
    requires LiteralAt(s, 0, w, ignoreCase) && |w| + 1 < |s| && IsSpace(s[|w|]) && !IsSpace(s[|w| + 1])
    ensures AfterCommand(s, w, ignoreCase) == Some(|w| + 1)
  {
    SpanFromExact(s, |w|, |w| + 1, Space);
  }

  /** A literal character that is not whitespace only matches a character that is not whitespace. */
  lemma CharMatchesNotSpace(c: char, p: char, ignoreCase: bool)
    requires CharMatches(c, p, ignoreCase) && !IsSpace(p)
    ensures !IsSpace(c)
  {
  }

  /** `.` followed by two ASCII letters at `k`. */
  predicate DomainAt(s: string, k: int)
  {
    0 <= k && k + 3 <= |s| && s[k] == '.' && IsAsciiLetter(s[k + 1]) && IsAsciiLetter(s[k + 2])
  }

  /** Some `k <= m` with `m + 3 <= e` has `DomainAt(s, m)`. */
  function DomainFrom(s: string, k: nat, e: nat): (r: bool)
    requires e <= |s|
    ensures r <==> exists m :: k <= m && m + 3 <= e && DomainAt(s, m)
    decreases e - k
  {
    k + 3 <= e && (DomainAt(s, k) || DomainFrom(s, k + 1, e))
  }

  /** Whitespace at `m`, then at least one more character, which is therefore not whitespace. */
  predicate SpaceThenArgument(s: string, m: nat)
    requires m <= |s|
  {
    var n := SpanFrom(s, m, Space);
    m < n < |s|
  }

  /** The regular-expression assertion `\b` at position `p`. */
  predicate WordBoundary(s: string, p: int)
  {
    (0 < p <= |s| && IsWordChar(s[p - 1])) != (0 <= p < |s| && IsWordChar(s[p]))
  }

  /** Greedily: a word (the owner), optionally `:` and another word (the group), then whitespace and an argument. */
  predicate OwnerThenArgument(s: string, j: nat)
    requires j <= |s|
  {
    var k := SpanFrom(s, j, Word);
    j < k
    && (|| SpaceThenArgument(s, k)
        || (k < |s| && s[k] == ':' && var m := SpanFrom(s, k + 1, Word); k + 1 < m && SpaceThenArgument(s, m)))
  }

  /** The greedy matcher. */
  predicate Matches(p: Pattern, s: string)
    ensures Matches(p, s) && !p.Exactly? ==> exists k | 0 <= k < |s| :: IsSpace(s[k])
  {
    match p
    case PingTo(addresses, ignoreCase) =>
      (match AfterCommand(s, "ping", ignoreCase)
       case Some(j) => exists a | a in addresses :: LiteralAt(s, j, a, ignoreCase)
       case None => false)
    case PingDomain =>
      (match AfterCommand(s, "ping", true)
       case Some(j) => DomainFrom(s, j + 1, SpanFrom(s, j, Host))
       case None => false)
    case CommandWord(words, ignoreCase) =>
      exists w | w in words :: AfterCommand(s, w, ignoreCase).Some?
    case ListLong(flagEnds) =>
      (match AfterCommand(s, "ls", false)
       case Some(j) => LiteralAt(s, j, "-l", false) && (!flagEnds || j + 2 == |s| || IsSpace(s[j + 2]))
       case None => false)
    case ChmodDigits =>
      (match AfterCommand(s, "chmod", false)
       case Some(j) => AllIn(s, j, j + 3, Digit) && WordBoundary(s, j + 3)
       case None => false)
    case ChownOwner =>
      (match AfterCommand(s, "chown", false)
       case Some(j) => OwnerThenArgument(s, j)
       case None => false)
    case Exactly(text) => s == text
  }

  // ---------------------------------------------------------------------
  // The language each expression denotes
  // ---------------------------------------------------------------------

  /** `\s+\S+` matches from `m`. */
  ghost predicate ArgumentAt(s: string, m: int)
  {
    exists n, q :: RunOf(s, m, n, Space) && RunOf(s, n, q, NonSpace)
  }

  /** `[a-z]{2,}` under the ignore-case flag matches from `i`. */
  ghost predicate LettersAt(s: string, i: int)
  {
    exists q :: i + 2 <= q && AllIn(s, i, q, Letter)
  }

  /** `\.[a-z]{2,}` under the ignore-case flag matches from `k`. */
  ghost predicate SuffixAt(s: string, k: int)
  {
    0 <= k < |s| && s[k] == '.' && LettersAt(s, k + 1)
  }

  /** `\s+` matches from `i`. */
  ghost predicate SpacesAt(s: string, i: int)
  {
    exists n :: RunOf(s, i, n, Space)
  }

  /** `s` is in the language of `p`. */
  ghost predicate Denotes(p: Pattern, s: string)
  {
    match p
    case PingTo(addresses, ignoreCase) =>
      exists j :: CommandThen(s, "ping", ignoreCase, j) && exists a :: a in addresses && LiteralAt(s, j, a, ignoreCase)
    case PingDomain =>
      exists j, k :: CommandThen(s, "ping", true, j) && RunOf(s, j, k, Host) && SuffixAt(s, k)
    case CommandWord(words, ignoreCase) =>
      exists w, j :: w in words && CommandThen(s, w, ignoreCase, j)
    case ListLong(flagEnds) =>
      exists j :: CommandThen(s, "ls", false, j) && LiteralAt(s, j, "-l", false)
                  && (!flagEnds || j + 2 == |s| || SpacesAt(s, j + 2))
    case ChmodDigits =>
      exists j :: CommandThen(s, "chmod", false, j) && AllIn(s, j, j + 3, Digit) && WordBoundary(s, j + 3)
    case ChownOwner =>
      exists j, k :: CommandThen(s, "chown", false, j) && RunOf(s, j, k, Word) && OwnerTail(s, k)
    case Exactly(text) => s == text
  }

  /** The greedy matcher is only exact when no address starts with whitespace (the expression could then give some back). */
  predicate WellFormed(p: Pattern)
  {
    p.PingTo? ==> forall a | a in p.addresses :: a != [] && !IsSpace(a[0])
  }

  // ---------------------------------------------------------------------
  // The greedy matcher recognises exactly the language of the expression
  // ---------------------------------------------------------------------

  lemma PingToDenotes(addresses: seq<string>, ignoreCase: bool, s: string)
    requires WellFormed(PingTo(addresses, ignoreCase))
    ensures Matches(PingTo(addresses, ignoreCase), s) <==> Denotes(PingTo(addresses, ignoreCase), s)
  {
    var p := PingTo(addresses, ignoreCase);
    if Matches(p, s) {
      var j := AfterCommand(s, "ping", ignoreCase).value;
      var a :| a in addresses && LiteralAt(s, j, a, ignoreCase);
      assert CommandThen(s, "ping", ignoreCase, j);
    }
    if Denotes(p, s) {
      var j :| CommandThen(s, "ping", ignoreCase, j) && exists a :: a in addresses && LiteralAt(s, j, a, ignoreCase);
      var a :| a in addresses && LiteralAt(s, j, a, ignoreCase);
      assert CharMatches(s[j + 0], a[0], ignoreCase);
      CharMatchesNotSpace(s[j], a[0], ignoreCase);
      AfterCommandLongest(s, "ping", ignoreCase, j);
    }
  }

  lemma PingDomainSound(s: string)
    requires Matches(PingDomain, s)
    ensures Denotes(PingDomain, s)
  {
    var j := AfterCommand(s, "ping", true).value;
    var e := SpanFrom(s, j, Host);
    var m :| j + 1 <= m && m + 3 <= e && DomainAt(s, m);
    assert AllIn(s, m + 1, m + 3, Letter);
    assert SuffixAt(s, m);
    assert RunOf(s, j, m, Host);
    assert CommandThen(s, "ping", true, j);
  }

  lemma PingDomainComplete(s: string)
    requires Denotes(PingDomain, s)
    ensures Matches(PingDomain, s)
  {
    var j, k :| CommandThen(s, "ping", true, j) && RunOf(s, j, k, Host) && SuffixAt(s, k);
    assert InClass(s[j], Host);
    AfterCommandLongest(s, "ping", true, j);
    var q :| k + 3 <= q && AllIn(s, k + 1, q, Letter);
    assert InClass(s[k + 1], Letter) && InClass(s[k + 2], Letter);
    assert DomainAt(s, k);
    assert AllIn(s, j, k + 3, Host);
    SpanFromMaximal(s, j, k + 3, Host);
    assert AfterCommand(s, "ping", true).value == j;
  }

  lemma PingDomainDenotes(s: string)
    ensures Matches(PingDomain, s) <==> Denotes(PingDomain, s)
  {
    if Matches(PingDomain, s) { PingDomainSound(s); }
    if Denotes(PingDomain, s) { PingDomainComplete(s); }
  }

  lemma CommandWordDenotes(words: seq<string>, ignoreCase: bool, s: string)
    ensures Matches(CommandWord(words, ignoreCase), s) <==> Denotes(CommandWord(words, ignoreCase), s)
  {
    if Matches(CommandWord(words, ignoreCase), s) {
      var w :| w in words && AfterCommand(s, w, ignoreCase).Some?;
      assert CommandThen(s, w, ignoreCase, AfterCommand(s, w, ignoreCase).value);
    }
    if Denotes(CommandWord(words, ignoreCase), s) {
      var w, j :| w in words && CommandThen(s, w, ignoreCase, j);
      AfterCommandLongest(s, w, ignoreCase, j);
    }
  }

  lemma ListLongDenotes(flagEnds: bool, s: string)
    ensures Matches(ListLong(flagEnds), s) <==> Denotes(ListLong(flagEnds), s)
  {
    if Matches(ListLong(flagEnds), s) {
      var j := AfterCommand(s, "ls", false).value;
      assert CommandThen(s, "ls", false, j);
      if flagEnds && j + 2 != |s| {
        assert RunOf(s, j + 2, j + 3, Space);
      }
    }
    if Denotes(ListLong(flagEnds), s) {
      var j :| CommandThen(s, "ls", false, j) && LiteralAt(s, j, "-l", false)
               && (!flagEnds || j + 2 == |s| || SpacesAt(s, j + 2));
      assert CharMatches(s[j + 0], "-l"[0], false);
      AfterCommandLongest(s, "ls", false, j);
      if flagEnds && j + 2 != |s| {
        var n :| RunOf(s, j + 2, n, Space);
        assert InClass(s[j + 2], Space);
      }
    }
  }

  lemma ChmodDigitsDenotes(s: string)
    ensures Matches(ChmodDigits, s) <==> Denotes(ChmodDigits, s)
  {
    if Matches(ChmodDigits, s) {
      assert CommandThen(s, "chmod", false, AfterCommand(s, "chmod", false).value);
    }
    if Denotes(ChmodDigits, s) {
      var j :| CommandThen(s, "chmod", false, j) && AllIn(s, j, j + 3, Digit) && WordBoundary(s, j + 3);
      assert InClass(s[j], Digit);
      AfterCommandLongest(s, "chmod", false, j);
    }
  }

  /** `\s+\S+` from `m`, with both runs taken greedily. */
  lemma ArgumentAtGreedy(s: string, m: nat)
    requires m <= |s|
    ensures ArgumentAt(s, m) <==> SpaceThenArgument(s, m)
  {
    var n := SpanFrom(s, m, Space);
    if SpaceThenArgument(s, m) {
      assert RunOf(s, m, n, Space) && RunOf(s, n, n + 1, NonSpace);
    }
    if ArgumentAt(s, m) {
      var n', q :| RunOf(s, m, n', Space) && RunOf(s, n', q, NonSpace);
      assert InClass(s[n'], NonSpace);
      SpanFromExact(s, m, n', Space);
    }
  }

  /** The optional group and the argument after the owner, from the end `k` of the owner's word. */
  ghost predicate OwnerTail(s: string, k: int)
  {
    || ArgumentAt(s, k)
    || (0 <= k < |s| && s[k] == ':' && exists m :: RunOf(s, k + 1, m, Word) && ArgumentAt(s, m))
  }

  lemma ChownOwnerSound(s: string)
    requires Matches(ChownOwner, s)
    ensures Denotes(ChownOwner, s)
  {
    var j := AfterCommand(s, "chown", false).value;
    var k := SpanFrom(s, j, Word);
    assert CommandThen(s, "chown", false, j) && RunOf(s, j, k, Word);
    ArgumentAtGreedy(s, k);
    if !SpaceThenArgument(s, k) {
      var m := SpanFrom(s, k + 1, Word);
      ArgumentAtGreedy(s, m);
      assert RunOf(s, k + 1, m, Word) && ArgumentAt(s, m);
    }
    assert OwnerTail(s, k);
  }

  /** The owner's word, when whitespace follows it, is the greedy run. */
  lemma OwnerArgumentGreedy(s: string, j: nat, k: int)
    requires RunOf(s, j, k, Word) && ArgumentAt(s, k)
    ensures k == SpanFrom(s, j, Word) && SpaceThenArgument(s, k)
  {
    var n, q :| RunOf(s, k, n, Space) && RunOf(s, n, q, NonSpace);
    assert InClass(s[k], Space);
    SpanFromExact(s, j, k, Word);
    ArgumentAtGreedy(s, k);
  }

  /** The owner's word, when `:` and the group follow it, is the greedy run, and so is the group's. */
  lemma OwnerGroupGreedy(s: string, j: nat, k: int, m: int)
    requires RunOf(s, j, k, Word) && k < |s| && s[k] == ':' && RunOf(s, k + 1, m, Word) && ArgumentAt(s, m)
    ensures k == SpanFrom(s, j, Word) && m == SpanFrom(s, k + 1, Word) && SpaceThenArgument(s, m)
  {
    SpanFromExact(s, j, k, Word);
    var n, q :| RunOf(s, m, n, Space) && RunOf(s, n, q, NonSpace);
    assert InClass(s[m], Space);
    SpanFromExact(s, k + 1, m, Word);
    ArgumentAtGreedy(s, m);
  }

  /** A word run followed by what `OwnerTail` needs cannot stop early: it is the greedy one. */
  lemma OwnerTailGreedy(s: string, j: nat, k: int)
    requires RunOf(s, j, k, Word) && OwnerTail(s, k)
    ensures k == SpanFrom(s, j, Word)
    ensures OwnerThenArgument(s, j)
  {
    if ArgumentAt(s, k) {
      OwnerArgumentGreedy(s, j, k);
    } else {
      var m :| RunOf(s, k + 1, m, Word) && ArgumentAt(s, m);
      OwnerGroupGreedy(s, j, k, m);
    }
  }

  lemma ChownOwnerComplete(s: string)
    requires Denotes(ChownOwner, s)
    ensures Matches(ChownOwner, s)
  {
    var j, k :| CommandThen(s, "chown", false, j) && RunOf(s, j, k, Word) && OwnerTail(s, k);
    assert !IsSpace(s[j]) by { assert InClass(s[j], Word); }
    AfterCommandLongest(s, "chown", false, j);
    assert AfterCommand(s, "chown", false) == Some(j);
    OwnerTailGreedy(s, j, k);
  }

  lemma ChownOwnerDenotes(s: string)
    ensures Matches(ChownOwner, s) <==> Denotes(ChownOwner, s)
  {
    if Matches(ChownOwner, s) { ChownOwnerSound(s); }
    if Denotes(ChownOwner, s) { ChownOwnerComplete(s); }
  }

  /** For every well-formed pattern and every command, the greedy matcher decides the expression's language. */
  lemma MatchesDenotes(p: Pattern, s: string)
    requires WellFormed(p)
    ensures Matches(p, s) <==> Denotes(p, s)
  {
    match p
    case PingTo(addresses, ignoreCase) => PingToDenotes(addresses, ignoreCase, s);
    case PingDomain => PingDomainDenotes(s);
    case CommandWord(words, ignoreCase) => CommandWordDenotes(words, ignoreCase, s);
    case ListLong(flagEnds) => ListLongDenotes(flagEnds, s);
    case ChmodDigits => ChmodDigitsDenotes(s);
    case ChownOwner => ChownOwnerDenotes(s);
    case Exactly(text) =>
  }

  // ---------------------------------------------------------------------
  // The ignore-case flag
  // ---------------------------------------------------------------------

  /** Patterns compiled with the ignore-case flag. */
  predicate IgnoresCase(p: Pattern)
  {
    || (p.PingTo? && p.ignoreCase)
    || p.PingDomain?
    || (p.CommandWord? && p.ignoreCase)
  }

  lemma AfterCommandLower(s: string, w: string)
    ensures AfterCommand(Lower(s), w, true) == AfterCommand(s, w, true)
  {
    LiteralAtLower(s, 0, w);
    if LiteralAt(s, 0, w, true) {
      SpanFromLower(s, |w|, Space);
    }
  }

  /** A pattern with the ignore-case flag matches a command exactly when it matches its ASCII lower-casing. */
  lemma MatchesLower(p: Pattern, s: string)
    requires IgnoresCase(p)
    ensures Matches(p, Lower(s)) == Matches(p, s)
  {
    var t := Lower(s);
    match p
    case PingTo(addresses, _) =>
      AfterCommandLower(s, "ping");
      if AfterCommand(s, "ping", true).Some? {
        var j := AfterCommand(s, "ping", true).value;
        forall a | a in addresses ensures LiteralAt(t, j, a, true) == LiteralAt(s, j, a, true) {
          LiteralAtLower(s, j, a);
        }
      }
    case PingDomain =>
      AfterCommandLower(s, "ping");
      if AfterCommand(s, "ping", true).Some? {
        var j := AfterCommand(s, "ping", true).value;
        SpanFromLower(s, j, Host);
        forall m | 0 <= m ensures DomainAt(t, m) == DomainAt(s, m) {
          if m + 3 <= |s| {
            ToLowerKeepsClass(s[m + 1], Letter);
            ToLowerKeepsClass(s[m + 2], Letter);
          }
        }
      }
    case CommandWord(words, _) =>
      forall w | w in words ensures AfterCommand(t, w, true) == AfterCommand(s, w, true) {
        AfterCommandLower(s, w);
      }
  }
}
