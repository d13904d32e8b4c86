/**
 * The problem library: one entry per troubleshooting flow, and the search
 * box that keeps the entries whose title, category and description, run
 * together, contain the query, ASCII case ignored.
 */
module Library {
  import opened Text
  import opened Flows

  datatype Problem = Problem(id: string, title: string, category: string, description: string)

  /** The library entry of the flow stored under `title`. */
  function ProblemOf(title: string, f: Flow): Problem
  {
    Problem(f.id, title, f.category, f.description)
  }

  /** `PROBLEMS`: the flows in declaration order. */
  const Problems: seq<Problem> := [ProblemOf(WifiTitle, WifiDrops), ProblemOf(DiskTitle, LinuxDisk)]

  /** There is exactly one entry per flow, and each opens the flow it describes. */
  lemma ProblemsListFlows()
    ensures |Problems| == |FlowTitles|
    ensures forall i | 0 <= i < |Problems| :: Problems[i].title == FlowTitles[i] && FlowTitles[i] in FlowDefs
                                             && Problems[i] == ProblemOf(FlowTitles[i], FlowDefs[FlowTitles[i]])
    ensures forall t | t in FlowDefs :: exists i | 0 <= i < |Problems| :: Problems[i].title == t
  {
    FlowTitlesAreTheKeys();
  }

  /** The text the query is looked up in. */
  function SearchText(p: Problem): (r: string)
    ensures |r| == |p.title| + |p.category| + |p.description|
    ensures forall i | 0 <= i < |r| :: !('A' <= r[i] <= 'Z')
  {
    Lower(p.title + p.category + p.description)
  }

  predicate Hit(p: Problem, q: string)
    ensures Hit(p, q) ==> |q| <= |SearchText(p)|
    ensures q == [] ==> Hit(p, q)
  {
    Contains(SearchText(p), Lower(q))
  }

  /** `PROBLEMS.filter(...)`: the entries the query hits. */
  function Filter(ps: seq<Problem>, q: string): (r: seq<Problem>)
    ensures |r| <= |ps|
    ensures forall p :: p in r <==> p in ps && Hit(p, q)
  {
    if ps == [] then [] else (if Hit(ps[0], q) then [ps[0]] else []) + Filter(ps[1..], q)
  }

  /** Filtering keeps the list's order: it works entry by entry. */
  lemma {:induction false} FilterConcat(a: seq<Problem>, b: seq<Problem>, q: string)
    ensures Filter(a + b, q) == Filter(a, q) + Filter(b, q)
  {
    if a == [] {
      assert a + b == b;
    } else {
      assert (a + b)[1..] == a[1..] + b;
      FilterConcat(a[1..], b, q);
    }
  }

  /** The empty query, the initial state of the box, lists everything. */
  lemma {:induction false} FilterEmptyQuery(ps: seq<Problem>)
    ensures Filter(ps, "") == ps
  {
    if ps != [] {
      assert Lower("") == "";
      ContainsEmpty(SearchText(ps[0]));
      FilterEmptyQuery(ps[1..]);
    }
  }

  /** The case of the query does not matter. */
  lemma {:induction false} FilterIgnoresCase(ps: seq<Problem>, q: string)
    ensures Filter(ps, Lower(q)) == Filter(ps, q)
  {
    LowerIdempotent(q);
    if ps != [] {
      FilterIgnoresCase(ps[1..], q);
    }
  }

  /** Typing more narrows the list: every entry shown for the longer query is shown for the shorter one. */
  lemma FilterNarrows(ps: seq<Problem>, q: string, more: string)
    ensures forall p | p in Filter(ps, q + more) :: p in Filter(ps, q)
  {
    LowerConcat(q, more);
    forall p | p in Filter(ps, q + more) ensures p in Filter(ps, q) {
      ContainsPrefix(SearchText(p), Lower(q), Lower(more));
    }
  }

  /** The search text, field by field. */
  lemma SearchTextFields(p: Problem)
    ensures SearchText(p) == Lower(p.title) + Lower(p.category) + Lower(p.description)
  {
    LowerConcat(p.title + p.category, p.description);
    LowerConcat(p.title, p.category);
  }

  /** The Wi-Fi entry's search text, field by field. */
  lemma WifiSearchText()
    ensures SearchText(Problems[0]) == Lower(WifiTitle) + Lower(WifiCategory) + Lower(WifiSummary)
  {
    assert Problems[0] == Problem("wifi-win", WifiTitle, WifiCategory, WifiSummary);
    SearchTextFields(Problems[0]);
  }

  /** The disk entry's search text, field by field. */
  lemma DiskSearchText()
    ensures SearchText(Problems[1]) == Lower(DiskTitle) + Lower(DiskCategory) + Lower(DiskSummary)
  {
    assert Problems[1] == Problem("linux-disk", DiskTitle, DiskCategory, DiskSummary);
    SearchTextFields(Problems[1]);
  }

  lemma WifiFieldsLack(c: char)
    requires c == 'l' || c == '-'
    ensures c !in Lower(WifiTitle) && c !in Lower(WifiCategory) && c !in Lower(WifiSummary)
  {
    NotInLower(WifiTitle, c);
    NotInLower(WifiCategory, c);
    NotInLower(WifiSummary, c);
  }

  lemma DiskFieldsLack(c: char)
    requires c == '-' || c == '\U{2011}'
    ensures c !in Lower(DiskTitle) && c !in Lower(DiskCategory) && c !in Lower(DiskSummary)
  {
    NotInLower(DiskTitle, c);
    NotInLower(DiskCategory, c);
    NotInLower(DiskSummary, c);
  }

  lemma WifiHasNoL()
    ensures 'l' !in SearchText(Problems[0]) && '-' !in SearchText(Problems[0])
  {
    WifiSearchText();
    WifiFieldsLack('l');
    WifiFieldsLack('-');
  }

  lemma DiskHasNoHyphen()
    ensures '-' !in SearchText(Problems[1]) && '\U{2011}' !in SearchText(Problems[1])
  {
    DiskSearchText();
    DiskFieldsLack('-');
    DiskFieldsLack('\U{2011}');
  }

  lemma LinuxQueryLower()
    ensures Lower("Linux") == "linux"
  {
    var q := Lower("Linux");
    assert q[0] == 'l' && q[1] == 'i' && q[2] == 'n' && q[3] == 'u' && q[4] == 'x';
  }

  lemma DiskTitleStartsLinux()
    ensures OccursAt(Lower(DiskTitle), "linux", 0)
  {
    var t := Lower(DiskTitle);
    assert t[0] == 'l' && t[1] == 'i' && t[2] == 'n' && t[3] == 'u' && t[4] == 'x';
    assert t[0..5] == "linux";
  }

  lemma LinuxHitsDisk()
    ensures Hit(Problems[1], "Linux")
  {
    LinuxQueryLower();
    DiskSearchText();
    DiskTitleStartsLinux();
    OccursInFirst(Lower(DiskTitle), Lower(DiskCategory), Lower(DiskSummary), "linux", 0);
  }

  lemma LinuxMissesWifi()
    ensures !Hit(Problems[0], "Linux")
  {
    LinuxQueryLower();
    WifiHasNoL();
    NotContainsChar(SearchText(Problems[0]), "linux", 0);
  }

  /** `Linux` finds the disk flow only. */
  lemma SearchLinux()
    ensures Filter(Problems, "Linux") == [Problems[1]]
  {
    LinuxMissesWifi();
    LinuxHitsDisk();
    assert Problems[2..] == [];
  }

  lemma WifiTitleEndLower()
    ensures Lower(WifiTitle)[14..] == "windows"
  {
    var t := Lower(WifiTitle);
    assert t[14] == 'w' && t[15] == 'i' && t[16] == 'n' && t[17] == 'd' && t[18] == 'o' && t[19] == 'w' && t[20] == 's';
  }

  lemma WifiCategoryLower()
    ensures Lower(WifiCategory) == "networking"
  {
    var t := Lower(WifiCategory);
    assert t[0] == 'n' && t[1] == 'e' && t[2] == 't' && t[3] == 'w' && t[4] == 'o';
    assert t[5] == 'r' && t[6] == 'k' && t[7] == 'i' && t[8] == 'n' && t[9] == 'g';
  }

  lemma StraddlingQueryLower()
    ensures Lower("windowsnetworking") == "windows" + "networking"
  {
    LowerUnchanged("windowsnetworking");
  }

  /** Fields are run together without a separator, so a query can straddle the title and the category. */
  lemma SearchAcrossFields()
    ensures Hit(Problems[0], "windowsnetworking")
  {
    WifiSearchText();
    WifiTitleEndLower();
    WifiCategoryLower();
    StraddlingQueryLower();
    OccursAcross(Lower(WifiTitle), Lower(WifiCategory), Lower(WifiSummary), 14);
  }

  /** The Wi-Fi description spells its hyphen as U+2011, so `wi-fi` typed with an ASCII hyphen finds nothing. */
  lemma AsciiHyphenFindsNothing()
    ensures Filter(Problems, "wi-fi") == []
  {
    var q := "wi-fi";
    LowerUnchanged(q);
    WifiHasNoL();
    DiskHasNoHyphen();
    NotContainsChar(SearchText(Problems[0]), q, 2);
    NotContainsChar(SearchText(Problems[1]), q, 2);
    assert Problems[2..] == [];
  }

  lemma WifiSummaryHyphen()
    ensures OccursAt(Lower(WifiSummary), Lower("Wi\U{2011}Fi"), 13)
  {
    var w := WifiSummary;
    assert w[13] == 'W' && w[14] == 'i' && w[15] == '\U{2011}' && w[16] == 'F' && w[17] == 'i';
    var t := Lower(w);
    var q := Lower("Wi\U{2011}Fi");
    assert q[0] == 'w' && q[1] == 'i' && q[2] == '\U{2011}' && q[3] == 'f' && q[4] == 'i';
    assert t[13..18] == q by {
      assert t[13] == 'w' && t[14] == 'i' && t[15] == '\U{2011}' && t[16] == 'f' && t[17] == 'i';
    }
  }

  lemma WifiHasNonBreakingHyphen()
    ensures Hit(Problems[0], "Wi\U{2011}Fi")
  {
    WifiSearchText();
    WifiSummaryHyphen();
    OccursInLast(Lower(WifiTitle), Lower(WifiCategory), Lower(WifiSummary), Lower("Wi\U{2011}Fi"), 13);
  }

  /** The search box's own example `Wi\U{2011}Fi` finds the Wi-Fi flow only. */
  lemma SearchPlaceholderExample()
    ensures Filter(Problems, "Wi\U{2011}Fi") == [Problems[0]]
  {
    WifiHasNonBreakingHyphen();
    DiskHasNoHyphen();
    var q := Lower("Wi\U{2011}Fi");
    assert q[2] == '\U{2011}';
    NotContainsChar(SearchText(Problems[1]), q, 2);
    assert Problems[2..] == [];
  }
}
