/**
 * The public experience section: a timeline of positions whose rows
 * alternate sides, with the current position's marker pulsing, and a
 * dialog for the selected experience. When the database cannot deliver a
 * list, three built-in sample experiences are shown.
 */
module ExperienceSectionComponent {
  import opened Wrappers
  import opened Records
  import opened Remote
  import opened Display

  /** The sample experiences shown when the database does not deliver a list. */
  const MockExperiences: seq<Experience> := [
    Experience("1", "TechSolutions Perú", "Senior Software Engineer",
      "Lideré el desarrollo de aplicaciones web empresariales y la implementación de arquitecturas de microservicios.",
      "2022-03-01", None,
      ["React", "Node.js", "AWS", "Docker", "PostgreSQL"],
      ["Redujo el tiempo de carga de aplicaciones en 40%",
       "Implementó sistema de CI/CD que mejoró la productividad del equipo",
       "Lideró equipo de 5 desarrolladores"],
      "2022-03-01", "2024-01-15"),
    Experience("2", "InnovateTech", "Full Stack Developer",
      "Desarrollé soluciones web completas y sistemas de gestión empresarial con enfoque en experiencia de usuario.",
      "2020-06-15", Some("2022-02-28"),
      ["JavaScript", "Python", "MySQL", "Vue.js", "Django"],
      ["Desarrolló 15+ aplicaciones web exitosas",
       "Implementó medidas de seguridad que redujeron vulnerabilidades en 80%",
       "Colaboró con equipos multidisciplinarios"],
      "2020-06-15", "2022-02-28"),
    Experience("3", "CyberGuard Solutions", "Cybersecurity Analyst",
      "Especialista en análisis de vulnerabilidades y implementación de medidas de seguridad informática.",
      "2019-01-10", Some("2020-05-30"),
      ["Linux", "Python", "Wireshark", "Metasploit", "Nessus"],
      ["Identificó y mitigó 200+ vulnerabilidades críticas",
       "Implementó protocolos de seguridad empresarial",
       "Realizó auditorías de seguridad para 50+ empresas"],
      "2019-01-10", "2020-05-30")
  ]

  /**
   * On the sample timeline only the first row is the current position: it
   * alone pulses and reads "Presente". Every sample row shows three
   * technologies and a "+2" badge.
   */
  lemma MockTimeline()
    ensures |MockExperiences| == 3
    ensures forall i :: 0 <= i < |MockExperiences| ==>
      (MarkerPulses(MockExperiences[i].endDate) <==> i == 0)
      && (EndDateLabel(MockExperiences[i].endDate) == Present <==> i == 0)
    ensures forall i :: 0 <= i < |MockExperiences| ==>
      PreviewTechnologies(MockExperiences[i].technologies).more == Some(2)
    ensures RowDirection(0) == Normal && RowDirection(1) == Reversed && RowDirection(2) == Normal
  {
    forall i | 0 <= i < |MockExperiences|
      ensures MarkerPulses(MockExperiences[i].endDate) <==> i == 0
    {
      PulsesIffPresent(MockExperiences[i].endDate);
    }
  }

  class ExperienceSection {
    var experiences: seq<Experience>
    var loading: bool
    var selected: Option<Experience>

    constructor ()
      ensures experiences == [] && loading && selected.None?
    {
      experiences := [];
      loading := true;
      selected := None;
    }

    /** The fetch on mount: the rows (an empty list included), or the sample list when none arrive. */
    method Fetch(reply: Reply<seq<Experience>>)
      modifies this
      ensures experiences == SectionFetch(reply, MockExperiences)
      ensures !loading && selected == old(selected)
    {
      experiences := SectionFetch(reply, MockExperiences);
      loading := false;
    }

    /** The row layout, marker and date-range end of timeline row `index`. */
    function Row(index: nat): (r: (RowSide, bool, EndLabel))
      requires index < |experiences|
      reads this
      ensures r.0 == Normal <==> index % 2 == 0
      ensures r.1 <==> r.2 == Present
      ensures r.2.Until? ==> experiences[index].endDate == Some(r.2.date)
    {
      PulsesIffPresent(experiences[index].endDate);
      (RowDirection(index), MarkerPulses(experiences[index].endDate), EndDateLabel(experiences[index].endDate))
    }

    /** The details button opens the dialog on that experience. */
    method Select(e: Experience)
      modifies this
      ensures selected == Some(e)
      ensures experiences == old(experiences) && loading == old(loading)
    {
      selected := Some(e);
    }

    method CloseDialog()
      modifies this
      ensures selected.None?
      ensures experiences == old(experiences) && loading == old(loading)
    {
      selected := None;
    }
  }
}
