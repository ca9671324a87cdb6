/** The site footer: the call-to-action block, hidden on the workflow page, and the quick
    links whose anchors are derived from their labels. */
module Footer {

  /** `toLowerCase` on one character, for the ASCII letters the labels use. */
  function LowerChar(c: char): (d: char)
    ensures 'A' <= c <= 'Z' ==> 'a' <= d <= 'z' && d as int == c as int + 32
    ensures !('A' <= c <= 'Z') ==> d == c
  {
    if 'A' <= c <= 'Z' then (c as int + 32) as char else c
  }

  function ToLower(s: string): (r: string)
    ensures |r| == |s|
    ensures forall i :: 0 <= i < |s| ==> r[i] == LowerChar(s[i])
  {
    seq(|s|, i requires 0 <= i < |s| => LowerChar(s[i]))
  }

  /** `replace(" ", "")` with a string pattern: the first space only is removed. */
  function RemoveFirstSpace(s: string): (r: string)
    ensures ' ' !in s ==> r == s
    ensures ' ' in s ==> |r| == |s| - 1
  {
    if s == [] then []
    else if s[0] == ' ' then s[1..]
    else [s[0]] + RemoveFirstSpace(s[1..])
  }

  /** Splitting at the first space: what precedes it and what follows it are joined. */
  lemma {:induction false} RemoveFirstSpaceSplit(before: string, after: string)
    requires ' ' !in before
    ensures RemoveFirstSpace(before + " " + after) == before + after
  {
    var s := before + " " + after;
    if before != [] {
      assert s[0] == before[0];
      assert s[1..] == before[1..] + " " + after;
      RemoveFirstSpaceSplit(before[1..], after);
    }
  }

  /** A label with two spaces keeps its second one. */
  lemma SecondSpaceKept(a: string, b: string, c: string)
    requires ' ' !in a
    ensures RemoveFirstSpace(a + " " + b + " " + c) == a + b + " " + c
    ensures ' ' in RemoveFirstSpace(a + " " + b + " " + c)
  {
    assert a + " " + b + " " + c == a + " " + (b + " " + c);
    RemoveFirstSpaceSplit(a, b + " " + c);
    assert (a + b + " " + c)[|a| + |b|] == ' ';
  }

  /** The quick link's href: `#${label.toLowerCase().replace(" ", "")}`. */
  function Anchor(name: string): (r: string)
    ensures |r| >= 1 && r[0] == '#'
    ensures ' ' !in name ==> r == "#" + ToLower(name)
    ensures |r| == if ' ' in name then |name| else |name| + 1
  {
    var lower := ToLower(name);
    assert ' ' in name <==> ' ' in lower by {
      if ' ' in name {
        var i :| 0 <= i < |name| && name[i] == ' ';
        assert lower[i] == ' ';
      }
      if ' ' in lower {
        var i :| 0 <= i < |lower| && lower[i] == ' ';
        assert name[i] == ' ';
      }
    }
    "#" + RemoveFirstSpace(lower)
  }

  const QuickLinks: seq<string> := ["Services", "About", "Portfolio", "Join Crew", "Contact"]

  /** The element ids present on the landing page: the sections' own ids and the footer's
      `id="contact"`. The hero section carries no id. */
  const LandingPageIds: seq<string> := ["services", "portfolio", "about", "testimonials", "join", "contact"]

  /** An in-page link that lands on an element of `ids`. */
  predicate Resolves(href: string, ids: seq<string>) {
    |href| >= 1 && href[0] == '#' && href[1..] in ids
  }

  /** Lower-casing a literal, checked character by character. */
  lemma Lowered(s: string, t: string)
    requires |s| == |t| && forall i :: 0 <= i < |s| ==> LowerChar(s[i]) == t[i]
    ensures ToLower(s) == t
  {
  }

  lemma SingleWordAnchor(name: string, lower: string)
    requires ' ' !in name
    requires |name| == |lower| && forall i :: 0 <= i < |name| ==> LowerChar(name[i]) == lower[i]
    ensures Anchor(name) == "#" + lower
  {
    Lowered(name, lower);
  }

  /** A two-word label loses the space between its words. */
  lemma TwoWordAnchor(first: string, second: string, lowerFirst: string, lowerSecond: string)
    requires ' ' !in first && ' ' !in lowerFirst
    requires ToLower(first) == lowerFirst && ToLower(second) == lowerSecond
    ensures Anchor(first + " " + second) == "#" + lowerFirst + lowerSecond
  {
    var name := first + " " + second;
    assert ToLower(name) == lowerFirst + " " + lowerSecond;
    RemoveFirstSpaceSplit(lowerFirst, lowerSecond);
  }

  /** "Join Crew" loses its space: the anchor is "#joincrew". */
  lemma JoinCrewAnchor()
    ensures Anchor("Join Crew") == "#joincrew"
  {
    Lowered("Join", "join");
    Lowered("Crew", "crew");
    TwoWordAnchor("Join", "Crew", "join", "crew");
    assert "Join" + " " + "Crew" == "Join Crew";
    assert "#" + "join" + "crew" == "#joincrew";
  }

  lemma ServicesAnchor()
    ensures Anchor("Services") == "#services"
  {
    SingleWordAnchor("Services", "services");
  }

  lemma AboutAnchor()
    ensures Anchor("About") == "#about"
  {
    SingleWordAnchor("About", "about");
  }

  lemma PortfolioAnchor()
    ensures Anchor("Portfolio") == "#portfolio"
  {
    SingleWordAnchor("Portfolio", "portfolio");
  }

  lemma ContactAnchor()
    ensures Anchor("Contact") == "#contact"
  {
    SingleWordAnchor("Contact", "contact");
  }

  /** The hrefs the footer renders, in order. */
  lemma QuickLinkAnchors()
    ensures Anchor(QuickLinks[0]) == "#services"
    ensures Anchor(QuickLinks[1]) == "#about"
    ensures Anchor(QuickLinks[2]) == "#portfolio"
    ensures Anchor(QuickLinks[3]) == "#joincrew"
    ensures Anchor(QuickLinks[4]) == "#contact"
  {
    ServicesAnchor();
    AboutAnchor();
    PortfolioAnchor();
    JoinCrewAnchor();
    ContactAnchor();
  }

  /** "joincrew" is none of the landing page's ids. */
  lemma JoinCrewIdMissing()
    ensures "joincrew" !in LandingPageIds
  {
    var ids := LandingPageIds;
    forall k | 0 <= k < |ids|
      ensures ids[k] != "joincrew"
    {
      assert |ids[k]| != 8 || ids[k][0] != 'j';
    }
  }

  /** An href naming the k-th landing-page id lands. */
  lemma LandsOn(href: string, k: nat)
    requires k < |LandingPageIds| && |href| >= 1 && href[0] == '#' && href[1..] == LandingPageIds[k]
    ensures Resolves(href, LandingPageIds)
  {
  }

  /** As written, the "Join Crew" link points at "#joincrew", which no element of the
      landing page carries (the crew section's id is "join"); the other four land. */
  lemma JoinCrewLinkDangles()
    ensures !Resolves(Anchor(QuickLinks[3]), LandingPageIds)
    ensures forall i :: 0 <= i < |QuickLinks| && i != 3 ==> Resolves(Anchor(QuickLinks[i]), LandingPageIds)
  {
    QuickLinkAnchors();
    JoinCrewIdMissing();
    assert "#joincrew"[1..] == "joincrew";
    forall i | 0 <= i < |QuickLinks| && i != 3
      ensures Resolves(Anchor(QuickLinks[i]), LandingPageIds)
    {
      var href := Anchor(QuickLinks[i]);
      var k := if i == 0 then 0 else if i == 1 then 2 else if i == 2 then 1 else 5;
      assert href[1..] == LandingPageIds[k];
      LandsOn(href, k);
    }
  }

  /** The id of the element each quick link is meant to reach, label by label; the crew
      section is "join", the id the navigation bar's careers link also uses. */
  const QuickLinkTargets: seq<string> := ["services", "about", "portfolio", "join", "contact"]

  /** The corrected href of the i-th quick link. */
  function QuickLinkHref(i: nat): (r: string)
    requires i < |QuickLinks|
    ensures Resolves(r, LandingPageIds)
  {
    "#" + QuickLinkTargets[i]
  }

  /** The corrected hrefs, in order. */
  lemma CorrectedHrefs()
    ensures QuickLinkHref(0) == "#services"
    ensures QuickLinkHref(1) == "#about"
    ensures QuickLinkHref(2) == "#portfolio"
    ensures QuickLinkHref(3) == "#join"
    ensures QuickLinkHref(4) == "#contact"
  {
  }

  /** Wherever the derived anchor already landed, the corrected href is that anchor. */
  lemma QuickLinkHrefsAgree()
    ensures QuickLinkHref(0) == Anchor(QuickLinks[0])
    ensures QuickLinkHref(1) == Anchor(QuickLinks[1])
    ensures QuickLinkHref(2) == Anchor(QuickLinks[2])
    ensures QuickLinkHref(4) == Anchor(QuickLinks[4])
  {
    CorrectedHrefs();
    QuickLinkAnchors();
  }

  /** Only the crew link changes, from "#joincrew" to "#join". */
  lemma CrewHrefChanged()
    ensures QuickLinkHref(3) == "#join"
    ensures Anchor(QuickLinks[3]) == "#joincrew"
  {
    JoinCrewAnchor();
  }

  /** The "Ready to Dominate?" block is rendered unless the path is exactly "/workflow". */
  function ShowsCta(pathname: string): (shown: bool)
    ensures shown <==> pathname != "/workflow"
  {
    !(pathname == "/workflow")
  }
}
