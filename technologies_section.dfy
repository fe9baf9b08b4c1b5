/**
 * The public technologies section: a fixed table of technologies shown one
 * category at a time, each card with a badge coloured by its level.
 */
module TechnologiesSectionComponent {
  import opened Seqs

  /** The category buttons, in order. */
  datatype Category = Programming | Database | Design | Networks | Tools | Hosting

  /** A category's id, the value technologies are tagged with; the hosting category's id is its label. */
  function CategoryId(c: Category): string {
    match c
    case Programming => "programming"
    case Database => "database"
    case Design => "design"
    case Networks => "networks"
    case Tools => "tools"
    case Hosting => "Hosting y Dominio"
  }

  const Categories: seq<Category> := [Programming, Database, Design, Networks, Tools, Hosting]

  /** The three levels the table uses: "Avanzado", "Intermedio", "Básico". */
  datatype Level = Advanced | Intermediate | Basic

  datatype Technology = Technology(name: string, category: Category, color: string, level: Level)

  /** The table, category by category, in the order it is listed. */
  const ProgrammingTechs: seq<Technology> := [
    Technology("JavaScript", Programming, "#F7DF1E", Advanced),
    Technology("Python", Programming, "#3776AB", Intermediate),
    Technology("Java", Programming, "#ED8B00", Intermediate),
    Technology("PHP", Programming, "#777BB4", Intermediate),
    Technology("HTML5", Programming, "#E34F26", Advanced),
    Technology("CSS3", Programming, "#1572B6", Advanced),
    Technology("React", Programming, "#61DAFB", Advanced),
    Technology("Node.js", Programming, "#339933", Intermediate)
  ]

  const DatabaseTechs: seq<Technology> := [
    Technology("MySQL", Database, "#4479A1", Advanced),
    Technology("Oracle", Database, "#F80000", Intermediate),
    Technology("SQL Server", Database, "#CC2927", Intermediate),
    Technology("MongoDB", Database, "#47A248", Basic),
    Technology("PostgreSQL", Database, "#336791", Intermediate),
    Technology("Supabase", Database, "#336791", Intermediate)
  ]

  const DesignTechs: seq<Technology> := [
    Technology("AutoCAD", Design, "#E51937", Advanced),
    Technology("StarUML", Design, "#FF6B6B", Intermediate),
    Technology("Figma", Design, "#F24E1E", Intermediate),
    Technology("Balsamiq", Design, "#A60000", Intermediate)
  ]

  const NetworkTechs: seq<Technology> := [
    Technology("Cisco Packet Tracer", Networks, "#1BA0D7", Advanced),
    Technology("Wireshark", Networks, "#1679A7", Intermediate),
    Technology("Linux", Networks, "#FCC624", Intermediate)
  ]

  const ToolTechs: seq<Technology> := [
    Technology("Visual Studio Code", Tools, "#007ACC", Advanced),
    Technology("Git", Tools, "#F05032", Advanced),
    Technology("Docker", Tools, "#2496ED", Intermediate),
    Technology("NetBeans", Tools, "#1B6EC8", Intermediate),
    Technology("Eclipse", Tools, "#2C2255", Intermediate)
  ]

  const HostingTechs: seq<Technology> := [
    Technology("Netlify", Hosting, "#1B6EC8", Intermediate),
    Technology("Firebase", Hosting, "#2C2255", Intermediate)
  ]

  /** The table's entries of one category. */
  function Group(c: Category): seq<Technology> {
    match c
    case Programming => ProgrammingTechs
    case Database => DatabaseTechs
    case Design => DesignTechs
    case Networks => NetworkTechs
    case Tools => ToolTechs
    case Hosting => HostingTechs
  }

  /** The whole table. */
  const Table: seq<Technology> :=
    ProgrammingTechs + DatabaseTechs + DesignTechs + NetworkTechs + ToolTechs + HostingTechs

  /** The category shown first. */
  const InitialFilter := Programming

  /** The test `tech.category === activeFilter`. */
  function InCategory(c: Category): Technology -> bool {
    (t: Technology) => t.category == c
  }

  /** `technologies.filter(tech => tech.category === activeFilter)`. */
  function FilteredTechnologies(c: Category): seq<Technology> {
    Filter(Table, InCategory(c))
  }

  /** No two entries share a name (the grid's key). */
  predicate DistinctNames(s: seq<Technology>) {
    forall i, j :: 0 <= i < j < |s| ==> s[i].name != s[j].name
  }

  /** Every entry of `s` is of category `g`. */
  predicate AllOf(s: seq<Technology>, g: Category) {
    forall i :: 0 <= i < |s| ==> s[i].category == g
  }

  /** Each group holds only entries of its own category. */
  lemma GroupCategories(g: Category)
    ensures AllOf(Group(g), g)
  {
  }

  /** Filtering a one-category list keeps all of it or none of it. */
  lemma FilterOneCategory(s: seq<Technology>, g: Category, c: Category)
    requires AllOf(s, g)
    ensures Filter(s, InCategory(c)) == if g == c then s else []
  {
    if g == c {
      FilterKeepsAll(s, InCategory(c));
    } else {
      FilterRejectsAll(s, InCategory(c));
    }
  }

  /** Filtering six one-category lists, one per category and in button order, picks out the chosen one. */
  lemma FilterGrouped(p: seq<Technology>, d: seq<Technology>, de: seq<Technology>,
                      n: seq<Technology>, t: seq<Technology>, h: seq<Technology>, c: Category)
    requires AllOf(p, Programming) && AllOf(d, Database) && AllOf(de, Design)
    requires AllOf(n, Networks) && AllOf(t, Tools) && AllOf(h, Hosting)
    ensures Filter(p + d + de + n + t + h, InCategory(c)) == match c
      case Programming => p
      case Database => d
      case Design => de
      case Networks => n
      case Tools => t
      case Hosting => h
  {
    var k := InCategory(c);
    FilterAppend(p + d + de + n + t, h, k);
    FilterAppend(p + d + de + n, t, k);
    FilterAppend(p + d + de, n, k);
    FilterAppend(p + d, de, k);
    FilterAppend(p, d, k);
    var fp, fd, fde, fn, ft, fh := Filter(p, k), Filter(d, k), Filter(de, k), Filter(n, k), Filter(t, k), Filter(h, k);
    assert Filter(p + d + de + n + t + h, k) == fp + fd + fde + fn + ft + fh;
    FilterOneCategory(p, Programming, c);
    FilterOneCategory(d, Database, c);
    FilterOneCategory(de, Design, c);
    FilterOneCategory(n, Networks, c);
    FilterOneCategory(t, Tools, c);
    FilterOneCategory(h, Hosting, c);
    match c
    case Programming => assert fd == fde == fn == ft == fh == [];
    case Database => assert fp == fde == fn == ft == fh == [];
    case Design => assert fp == fd == fn == ft == fh == [];
    case Networks => assert fp == fd == fde == ft == fh == [];
    case Tools => assert fp == fd == fde == fn == fh == [];
    case Hosting => assert fp == fd == fde == fn == ft == [];
  }

  /** A category button shows exactly that category's entries, in table order. */
  lemma FilteredIsGroup(c: Category)
    ensures FilteredTechnologies(c) == Group(c)
  {
    GroupCategories(Programming);
    GroupCategories(Database);
    GroupCategories(Design);
    GroupCategories(Networks);
    GroupCategories(Tools);
    GroupCategories(Hosting);
    FilterGrouped(ProgrammingTechs, DatabaseTechs, DesignTechs, NetworkTechs, ToolTechs, HostingTechs, c);
  }

  /**
   * Every category button shows a non-empty grid: 8 programming languages,
   * 6 databases, 4 design tools, 3 network tools, 5 development tools and 2
   * hosting services, 28 in all; every shown card is of the chosen category.
   */
  lemma CategorySizes(c: Category)
    ensures |Table| == 28
    ensures |FilteredTechnologies(c)| == match c
      case Programming => 8
      case Database => 6
      case Design => 4
      case Networks => 3
      case Tools => 5
      case Hosting => 2
    ensures forall i :: 0 <= i < |FilteredTechnologies(c)| ==> FilteredTechnologies(c)[i].category == c
  {
    FilteredIsGroup(c);
    GroupCategories(c);
  }

  lemma ProgrammingNamesDistinct()
    ensures DistinctNames(ProgrammingTechs)
  {
  }

  lemma DatabaseNamesDistinct()
    ensures DistinctNames(DatabaseTechs)
  {
  }

  /** Within each group the names differ. */
  lemma GroupNamesDistinct(g: Category)
    ensures DistinctNames(Group(g))
  {
    match g
    case Programming => ProgrammingNamesDistinct();
    case Database => DatabaseNamesDistinct();
    case Design =>
    case Networks =>
    case Tools =>
    case Hosting =>
  }

  /** No entry of `a` has the name of an entry of `b`. */
  predicate NamesDisjoint(a: seq<Technology>, b: seq<Technology>) {
    forall i, j :: 0 <= i < |a| && 0 <= j < |b| ==> a[i].name != b[j].name
  }

  /** Names stay distinct when two lists with no name in common are joined. */
  lemma DistinctAppend(a: seq<Technology>, b: seq<Technology>)
    requires DistinctNames(a) && DistinctNames(b) && NamesDisjoint(a, b)
    ensures DistinctNames(a + b)
  {
    var ab := a + b;
    forall i, j | 0 <= i < j < |ab|
      ensures ab[i].name != ab[j].name
    {
      if j < |a| {
        assert ab[i] == a[i] && ab[j] == a[j];
      } else if i < |a| {
        assert ab[i] == a[i] && ab[j] == b[j - |a|];
      } else {
        assert ab[i] == b[i - |a|] && ab[j] == b[j - |a|];
      }
    }
  }

  /** A list whose parts share no name with `c` shares none with it either. */
  lemma DisjointAppend(a: seq<Technology>, b: seq<Technology>, c: seq<Technology>)
    requires NamesDisjoint(a, c) && NamesDisjoint(b, c)
    ensures NamesDisjoint(a + b, c)
  {
    var ab := a + b;
    forall i, j | 0 <= i < |ab| && 0 <= j < |c|
      ensures ab[i].name != c[j].name
    {
      if i < |a| {
        assert ab[i] == a[i];
      } else {
        assert ab[i] == b[i - |a|];
      }
    }
  }

  // Entries of two different groups never share a name; one lemma per pair of groups.
  lemma ProgrammingDatabaseDisjoint()
    ensures NamesDisjoint(ProgrammingTechs, DatabaseTechs)
  {
  }

  lemma ProgrammingDesignDisjoint()
    ensures NamesDisjoint(ProgrammingTechs, DesignTechs)
  {
  }

  lemma ProgrammingNetworkDisjoint()
    ensures NamesDisjoint(ProgrammingTechs, NetworkTechs)
  {
  }

  lemma ProgrammingToolDisjoint()
    ensures NamesDisjoint(ProgrammingTechs, ToolTechs)
  {
  }

  lemma ProgrammingHostingDisjoint()
    ensures NamesDisjoint(ProgrammingTechs, HostingTechs)
  {
  }

  lemma DatabaseDesignDisjoint()
    ensures NamesDisjoint(DatabaseTechs, DesignTechs)
  {
  }

  lemma DatabaseNetworkDisjoint()
    ensures NamesDisjoint(DatabaseTechs, NetworkTechs)
  {
  }

  lemma DatabaseToolDisjoint()
    ensures NamesDisjoint(DatabaseTechs, ToolTechs)
  {
  }

  lemma DatabaseHostingDisjoint()
    ensures NamesDisjoint(DatabaseTechs, HostingTechs)
  {
  }

  lemma DesignNetworkDisjoint()
    ensures NamesDisjoint(DesignTechs, NetworkTechs)
  {
  }

  lemma DesignToolDisjoint()
    ensures NamesDisjoint(DesignTechs, ToolTechs)
  {
  }

  lemma DesignHostingDisjoint()
    ensures NamesDisjoint(DesignTechs, HostingTechs)
  {
  }

  lemma NetworkToolDisjoint()
    ensures NamesDisjoint(NetworkTechs, ToolTechs)
  {
  }

  lemma NetworkHostingDisjoint()
    ensures NamesDisjoint(NetworkTechs, HostingTechs)
  {
  }

  lemma ToolHostingDisjoint()
    ensures NamesDisjoint(ToolTechs, HostingTechs)
  {
  }

  /** No two entries of the whole table share a name, whatever their categories. */
  lemma TableNamesDistinct()
    ensures DistinctNames(Table)
  {
    var prefix := ProgrammingTechs;
    GroupNamesDistinct(Programming);
    // DatabaseTechs shares no name with the groups before it.
    ProgrammingDatabaseDisjoint();
    GroupNamesDistinct(Database);
    DistinctAppend(ProgrammingTechs, DatabaseTechs);
    // DesignTechs shares no name with the groups before it.
    ProgrammingDesignDisjoint();
    DatabaseDesignDisjoint();
    DisjointAppend(ProgrammingTechs, DatabaseTechs, DesignTechs);
    GroupNamesDistinct(Design);
    DistinctAppend(ProgrammingTechs + DatabaseTechs, DesignTechs);
    // NetworkTechs shares no name with the groups before it.
    ProgrammingNetworkDisjoint();
    DatabaseNetworkDisjoint();
    DesignNetworkDisjoint();
    DisjointAppend(ProgrammingTechs, DatabaseTechs, NetworkTechs);
    DisjointAppend(ProgrammingTechs + DatabaseTechs, DesignTechs, NetworkTechs);
    GroupNamesDistinct(Networks);
    DistinctAppend(ProgrammingTechs + DatabaseTechs + DesignTechs, NetworkTechs);
    // ToolTechs shares no name with the groups before it.
    ProgrammingToolDisjoint();
    DatabaseToolDisjoint();
    DesignToolDisjoint();
    NetworkToolDisjoint();
    DisjointAppend(ProgrammingTechs, DatabaseTechs, ToolTechs);
    DisjointAppend(ProgrammingTechs + DatabaseTechs, DesignTechs, ToolTechs);
    DisjointAppend(ProgrammingTechs + DatabaseTechs + DesignTechs, NetworkTechs, ToolTechs);
    GroupNamesDistinct(Tools);
    DistinctAppend(ProgrammingTechs + DatabaseTechs + DesignTechs + NetworkTechs, ToolTechs);
    // HostingTechs shares no name with the groups before it.
    ProgrammingHostingDisjoint();
    DatabaseHostingDisjoint();
    DesignHostingDisjoint();
    NetworkHostingDisjoint();
    ToolHostingDisjoint();
    DisjointAppend(ProgrammingTechs, DatabaseTechs, HostingTechs);
    DisjointAppend(ProgrammingTechs + DatabaseTechs, DesignTechs, HostingTechs);
    DisjointAppend(ProgrammingTechs + DatabaseTechs + DesignTechs, NetworkTechs, HostingTechs);
    DisjointAppend(ProgrammingTechs + DatabaseTechs + DesignTechs + NetworkTechs, ToolTechs, HostingTechs);
    GroupNamesDistinct(Hosting);
    DistinctAppend(ProgrammingTechs + DatabaseTechs + DesignTechs + NetworkTechs + ToolTechs, HostingTechs);
  }

  /** No two cards of one view share a name, so the grid's keys are unique. */
  lemma KeysUniquePerView(c: Category)
    ensures DistinctNames(FilteredTechnologies(c))
  {
    FilteredIsGroup(c);
    GroupNamesDistinct(c);
  }

  /** The badge colours: success for "Avanzado", accent for "Intermedio", primary for anything else. */
  datatype BadgeStyle = Success | Accent | PrimaryTone

  function Badge(l: Level): (b: BadgeStyle)
    ensures b == Success <==> l == Advanced
    ensures b == Accent <==> l == Intermediate
  {
    match l
    case Advanced => Success
    case Intermediate => Accent
    case Basic => PrimaryTone
  }

  /** The one basic-level entry, MongoDB, is the only card with the primary-coloured badge. */
  lemma OnlyOneBasicEntry()
    ensures forall i :: 0 <= i < |Table| ==> (Badge(Table[i].level) == PrimaryTone <==> i == 11)
    ensures Table[11] == DatabaseTechs[3]
  {
  }

  class TechnologiesSection {
    var activeFilter: Category

    constructor ()
      ensures activeFilter == InitialFilter
    {
      activeFilter := InitialFilter;
    }

    method SelectFilter(c: Category)
      modifies this
      ensures activeFilter == c
    {
      activeFilter := c;
    }

    /** The grid shown for the active category: never empty. */
    function Shown(): (r: seq<Technology>)
      reads this
      ensures r == FilteredTechnologies(activeFilter)
      ensures |r| > 0
    {
      CategorySizes(activeFilter);
      FilteredTechnologies(activeFilter)
    }
  }
}
