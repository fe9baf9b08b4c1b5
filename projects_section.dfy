/**
 * The public projects section: the project cards under a row of category
 * filter buttons, an empty-state message, and a dialog for the selected
 * project. When the database cannot deliver a list, four built-in sample
 * projects are shown.
 */
module ProjectsSectionComponent {
  import opened Wrappers
  import opened Seqs
  import opened Records
  import opened Remote

  /** The filter buttons, in order; "all" is the one selected at first. */
  const CategoryIds: seq<string> := ["all", "programming", "database", "design", "networks", "tools"]

  const AllFilter := "all"

  /** The test `project.category === activeFilter`. */
  function InCategory(filter: string): Project -> bool {
    (p: Project) => p.category == filter
  }

  /** `activeFilter === 'all' ? projects : projects.filter(p => p.category === activeFilter)`. */
  function Filtered(projects: seq<Project>, filter: string): seq<Project> {
    if filter == AllFilter then projects else Filter(projects, InCategory(filter))
  }

  /**
   * "all" shows every project; any other filter shows exactly the projects
   * of that category, in their order.
   */
  lemma FilteredSpec(projects: seq<Project>, filter: string)
    ensures filter == AllFilter ==> Filtered(projects, filter) == projects
    ensures filter != AllFilter ==>
      (forall i :: 0 <= i < |Filtered(projects, filter)| ==>
        Filtered(projects, filter)[i] in projects && Filtered(projects, filter)[i].category == filter)
      && (forall i :: 0 <= i < |projects| && projects[i].category == filter ==> projects[i] in Filtered(projects, filter))
      && IsSubsequence(Filtered(projects, filter), projects)
  {
    FilterMembers(projects, InCategory(filter));
    FilterIsSubsequence(projects, InCategory(filter));
  }

  /** The sample projects shown when the database does not deliver a list. */
  const MockProjects: seq<Project> := [
    Project("1", "Sistema de Gestión Empresarial",
      "Plataforma web completa para gestión de recursos empresariales con dashboard analytics y reportes en tiempo real.",
      ["React", "Node.js", "PostgreSQL", "TypeScript"], "web",
      Some("https://images.pexels.com/photos/590020/pexels-photo-590020.jpeg"),
      Some("https://demo.example.com"), Some("https://github.com/example"), true, "2024-01-15", "2024-01-15"),
    Project("2", "App de Monitoreo de Seguridad",
      "Aplicación móvil para monitoreo en tiempo real de sistemas de seguridad y alertas automáticas.",
      ["React Native", "Firebase", "Python", "Machine Learning"], "mobile",
      Some("https://images.pexels.com/photos/60504/security-protection-anti-virus-software-60504.jpeg"),
      Some("https://demo.example.com"), None, true, "2024-02-01", "2024-02-01"),
    Project("3", "Sistema de Análisis Geoespacial",
      "Herramienta desktop para análisis y visualización de datos geoespaciales con integración GIS.",
      ["Python", "QGIS", "PostgreSQL", "ArcGIS"], "desktop",
      Some("https://images.pexels.com/photos/87651/earth-blue-planet-globe-planet-87651.jpeg"),
      None, Some("https://github.com/example"), false, "2024-03-01", "2024-03-01"),
    Project("4", "Modelo Predictivo de Mantenimiento",
      "Sistema de IA para predicción de mantenimiento de equipos industriales usando machine learning.",
      ["Python", "TensorFlow", "Pandas", "Docker"], "ai",
      Some("https://images.pexels.com/photos/8439093/pexels-photo-8439093.jpeg"),
      Some("https://demo.example.com"), None, true, "2024-04-01", "2024-04-01")
  ]

  /** The sample projects' categories (web, mobile, desktop, ai). */
  function MockCategories(): (r: seq<string>)
    ensures |r| == |MockProjects|
    ensures forall i :: 0 <= i < |r| ==> r[i] == MockProjects[i].category
  {
    ["web", "mobile", "desktop", "ai"]
  }

  /**
   * The sample categories are none of the filter categories: on the sample
   * list "all" shows the four projects and every other button shows none.
   */
  lemma MockMatchesOnlyAll(filter: string)
    requires filter in CategoryIds
    ensures filter == AllFilter ==> |Filtered(MockProjects, filter)| == 4
    ensures filter != AllFilter ==> Filtered(MockProjects, filter) == []
  {
    var cats := MockCategories();
    if filter != AllFilter {
      forall i | 0 <= i < |MockProjects| ensures MockProjects[i].category != filter {
        assert MockProjects[i].category == cats[i];
        assert |filter| != |cats[i]| || filter[0] != cats[i][0];
      }
      FilterRejectsAll(MockProjects, InCategory(filter));
    }
  }

  class ProjectsSection {
    var projects: seq<Project>
    var loading: bool
    var activeFilter: string
    var selected: Option<Project>

    constructor ()
      ensures projects == [] && loading && activeFilter == AllFilter && selected.None?
    {
      projects := [];
      loading := true;
      activeFilter := AllFilter;
      selected := None;
    }

    /** The fetch on mount: the rows (an empty list included), or the sample list when none arrive. */
    method Fetch(reply: Reply<seq<Project>>)
      modifies this
      ensures projects == SectionFetch(reply, MockProjects)
      ensures !loading && activeFilter == old(activeFilter) && selected == old(selected)
    {
      projects := SectionFetch(reply, MockProjects);
      loading := false;
    }

    function FilteredProjects(): seq<Project>
      reads this
    {
      Filtered(projects, activeFilter)
    }

    /** The "no projects in this category" message: nothing passes the filter and loading is over. */
    predicate EmptyMessageShown()
      reads this
    {
      |FilteredProjects()| == 0 && !loading
    }

    /** A filter button selects its category. */
    method SelectFilter(id: string)
      requires id in CategoryIds
      modifies this
      ensures activeFilter == id
      ensures projects == old(projects) && loading == old(loading) && selected == old(selected)
    {
      activeFilter := id;
    }

    /** Clicking a card opens the dialog on that project. */
    method Select(p: Project)
      modifies this
      ensures selected == Some(p)
      ensures projects == old(projects) && loading == old(loading) && activeFilter == old(activeFilter)
    {
      selected := Some(p);
    }

    predicate DialogOpen()
      reads this
    {
      selected.Some?
    }

    method CloseDialog()
      modifies this
      ensures !DialogOpen()
      ensures projects == old(projects) && loading == old(loading) && activeFilter == old(activeFilter)
    {
      selected := None;
    }
  }

  /**
   * After the database fails, choosing any filter other than "all" shows the
   * empty-state message over the sample list.
   */
  method EmptyStateOnSampleList(filter: string, code: string) returns (shown: bool)
    requires filter in CategoryIds && filter != AllFilter
    ensures shown
  {
    var section := new ProjectsSection();
    section.Fetch(Error(code));
    section.SelectFilter(filter);
    MockMatchesOnlyAll(filter);
    shown := section.EmptyMessageShown();
  }
}
