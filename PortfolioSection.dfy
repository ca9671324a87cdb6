/** The portfolio grid: eight built-in projects followed by the projects in the store,
    narrowed by the active category, each drawn as a tile whose shape follows its size. */
module PortfolioSection {

  /** Built-in projects carry numeric ids, store projects their document key. */
  datatype ProjectId = Builtin(n: int) | Doc(key: string)

  /** A project as the grid reads it. `kind` is the source's `type`; a field a store
      document lacks is the empty string. */
  datatype Project = Project(
    id: ProjectId, title: string, category: string, image: string,
    kind: string, size: string, link: string)

  const All := "All"

  /** The filter buttons, in order. */
  const Categories: seq<string> := [All, "Websites", "Video", "Photo", "Branding", "Social"]

  const BuiltinProjects: seq<Project> := [
    Project(Builtin(101), "Luxry Restaurant Website", "Websites", "@/assets/Projects/KK.png",
            "website", "large", "https://thunder-gaming.vercel.app/"),
    Project(Builtin(1), "Gaming Cafe shoot", "Video", "@/assets/Projects/TG.png",
            "video", "regular",
            "https://www.instagram.com/reel/DSCHKgnDOQg/?utm_source=ig_web_copy_link&igsh=MzRlODBiNWFlZA=="),
    Project(Builtin(2), "Thumbnail Design", "Photo", "@/assets/Projects/TH1.png",
            "image", "regular",
            "https://www.instagram.com/p/DSSPWwriMaK/?utm_source=ig_web_copy_link&igsh=MzRlODBiNWFlZA=="),
    Project(Builtin(102), "Gaming Cafe Website", "Websites", "@/assets/Projects/TGW.png",
            "website", "large", "https://thunder-cafe.vercel.app/"),
    Project(Builtin(3), "Tech Startup Identity", "Branding", "@/assets/Projects/RS.png",
            "Reel", "regular",
            "https://www.instagram.com/reel/DOD1Zp4iD61/?utm_source=ig_web_copy_link&igsh=MzRlODBiNWFlZA=="),
    Project(Builtin(4), "Wild Life", "Photo", "@/assets/Projects/WL.png",
            "image", "tall",
            "https://www.instagram.com/p/DSIP5etDBXW/?utm_source=ig_web_copy_link&igsh=MzRlODBiNWFlZA=="),
    Project(Builtin(5), "Festival Shoot", "Video", "@/assets/Projects/FS.png",
            "video", "regular",
            "https://www.instagram.com/reel/DOTgnsPjM8u/?utm_source=ig_web_copy_link&igsh=MzRlODBiNWFlZA=="),
    Project(Builtin(6), "Social Growth Strategy", "Social", "@/assets/Projects/SS1.png",
            "image", "regular", "https://www.instagram.com/kala_stra/")
  ]

  /** `allProjects`: the built-ins, then the store's projects in snapshot order. */
  function AllProjects(store: seq<Project>): (r: seq<Project>)
    ensures |r| == |BuiltinProjects| + |store|
    ensures forall i :: 0 <= i < |BuiltinProjects| ==> r[i] == BuiltinProjects[i]
    ensures forall i :: 0 <= i < |store| ==> r[|BuiltinProjects| + i] == store[i]
  {
    BuiltinProjects + store
  }

  /** `ps.filter(p => p.category === cat)`. */
  function InCategory(ps: seq<Project>, cat: string): (r: seq<Project>)
    ensures |r| <= |ps|
    ensures forall p :: p in r ==> p in ps && p.category == cat
  {
    if ps == [] then []
    else (if ps[0].category == cat then [ps[0]] else []) + InCategory(ps[1..], cat)
  }

  /** `filteredProjects`: everything under "All", otherwise the projects of that category. */
  function Filtered(active: string, all: seq<Project>): (r: seq<Project>)
    ensures active == All ==> r == all
    ensures active != All ==> forall p :: p in r ==> p in all && p.category == active
  {
    if active == All then all else InCategory(all, active)
  }

  /** The filter drops no project of the category and keeps nothing else: each matching
      project occurs as often as in the input, every other project not at all. */
  lemma {:induction false} InCategoryCounts(ps: seq<Project>, cat: string, p: Project)
    ensures p.category == cat ==> multiset(InCategory(ps, cat))[p] == multiset(ps)[p]
    ensures p.category != cat ==> multiset(InCategory(ps, cat))[p] == 0
  {
    if ps != [] {
      InCategoryCounts(ps[1..], cat, p);
      assert ps == [ps[0]] + ps[1..];
      assert multiset(ps) == multiset([ps[0]]) + multiset(ps[1..]);
    }
  }

  /** Filtering keeps relative order: it distributes over concatenation. */
  lemma {:induction false} InCategoryAppend(a: seq<Project>, b: seq<Project>, cat: string)
    ensures InCategory(a + b, cat) == InCategory(a, cat) + InCategory(b, cat)
  {
    if a == [] {
      assert a + b == b;
    } else {
      assert (a + b)[0] == a[0];
      assert (a + b)[1..] == a[1..] + b;
      InCategoryAppend(a[1..], b, cat);
    }
  }

  /** A list already all of one category passes the filter unchanged. */
  lemma {:induction false} InCategoryOfUniform(ps: seq<Project>, cat: string)
    requires forall i :: 0 <= i < |ps| ==> ps[i].category == cat
    ensures InCategory(ps, cat) == ps
  {
    if ps != [] {
      InCategoryOfUniform(ps[1..], cat);
    }
  }

  /** Within a category the built-in projects come first, in their fixed order, then
      the store's projects of that category in snapshot order. */
  lemma FilteredBuiltinsFirst(active: string, store: seq<Project>)
    requires active != All
    ensures Filtered(active, AllProjects(store))
         == InCategory(BuiltinProjects, active) + InCategory(store, active)
  {
    InCategoryAppend(BuiltinProjects, store, active);
  }

  /** How a tile spans the grid and the aspect ratio of its image box. */
  datatype Tile = Tile(colSpan: nat, rowSpan: nat, aspectW: nat, aspectH: nat)

  /** `md:col-span-2` for "large", `md:row-span-2` for "tall"; aspect 9/16 for "tall",
      16/9 for "large", 4/3 otherwise. */
  function TileFor(size: string): (t: Tile)
    ensures t.colSpan == 2 <==> size == "large"
    ensures t.rowSpan == 2 <==> size == "tall"
    ensures 1 <= t.colSpan <= 2 && 1 <= t.rowSpan <= 2
    ensures t.colSpan > t.rowSpan ==> t.aspectW > t.aspectH
    ensures t.rowSpan > t.colSpan ==> t.aspectW < t.aspectH
    ensures t.colSpan == t.rowSpan ==> t.aspectW * 3 == t.aspectH * 4
    ensures size == "large" ==> t.aspectW * 9 == t.aspectH * 16
    ensures size == "tall" ==> t.aspectW * 16 == t.aspectH * 9
  {
    var cols := if size == "large" then 2 else 1;
    var rows := if size == "tall" then 2 else 1;
    if size == "tall" then Tile(cols, rows, 9, 16)
    else if size == "large" then Tile(cols, rows, 16, 9)
    else Tile(cols, rows, 4, 3)
  }

  /** The play badge is drawn for `type === "video"` only. */
  predicate ShowsPlayBadge(p: Project) {
    p.kind == "video"
  }

  /** Among the built-ins the badge marks exactly the two video projects; the "Reel"
      entry gets none. */
  lemma BuiltinPlayBadges()
    ensures forall i :: 0 <= i < |BuiltinProjects| ==>
              (ShowsPlayBadge(BuiltinProjects[i]) <==> BuiltinProjects[i].id in {Builtin(1), Builtin(5)})
    ensures !ShowsPlayBadge(BuiltinProjects[4]) && BuiltinProjects[4].kind == "Reel"
  {
  }

  /** The section's state: the active filter and the projects of the latest snapshot. */
  class Section {
    var activeCategory: string
    var dynamicProjects: seq<Project>

    constructor ()
      ensures activeCategory == All && dynamicProjects == []
    {
      activeCategory := All;
      dynamicProjects := [];
    }

    /** A filter button was clicked. */
    method SetActiveCategory(cat: string)
      requires cat in Categories
      modifies this`activeCategory
      ensures activeCategory == cat
    {
      activeCategory := cat;
    }

    /** The store listener fired: the snapshot replaces the store-derived list. */
    method OnSnapshot(docs: seq<Project>)
      modifies this`dynamicProjects
      ensures dynamicProjects == docs
    {
      dynamicProjects := docs;
    }

    /** The tiles drawn now. */
    function Shown(): (r: seq<Project>)
      reads this
      ensures forall p :: p in r ==> p in AllProjects(dynamicProjects)
      ensures activeCategory != All ==> forall p :: p in r ==> p.category == activeCategory
      ensures activeCategory == All ==> r == AllProjects(dynamicProjects)
      ensures activeCategory == All ==> |r| == |BuiltinProjects| + |dynamicProjects|
    {
      Filtered(activeCategory, AllProjects(dynamicProjects))
    }
  }
}
