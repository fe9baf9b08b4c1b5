/**
 * The experience editor of the admin panel. It stays mounted while the
 * experience list is shown and re-initialises its draft whenever the
 * experience it is given changes. While a save is in flight its submit
 * button is disabled.
 */
module ExperienceFormComponent {
  import opened Wrappers
  import opened Text
  import opened Seqs
  import opened Records
  import opened Remote
  import opened DraftLists

  /** `formData`: dates as `YYYY-MM-DD` text, an empty end date meaning "current position". */
  datatype ExperienceDraft = ExperienceDraft(
    company: string,
    position: string,
    description: string,
    startDate: string,
    endDate: string,
    technologies: seq<string>,
    achievements: seq<string>)

  const EmptyDraft := ExperienceDraft("", "", "", "", "", [], [])

  /** The draft an existing experience opens with: both dates cut at their 'T', an absent or empty end date as ''. */
  function DraftOf(e: Experience): (d: ExperienceDraft)
    ensures d.company == e.company && d.position == e.position && d.description == e.description
    ensures d.startDate == DateOnly(e.startDate)
    ensures Truthy(e.endDate) ==> d.endDate == DateOnly(e.endDate.value)
    ensures !Truthy(e.endDate) ==> d.endDate == ""
    ensures d.technologies == e.technologies && d.achievements == e.achievements
  {
    ExperienceDraft(e.company, e.position, e.description, DateOnly(e.startDate),
      if Truthy(e.endDate) then DateOnly(e.endDate.value) else "",
      e.technologies, e.achievements)
  }

  /** The text and date inputs, by their `name` attribute. */
  datatype TextField = Company | Position | Description | StartDate | EndDate

  function WithText(d: ExperienceDraft, f: TextField, value: string): ExperienceDraft {
    match f
    case Company => d.(company := value)
    case Position => d.(position := value)
    case Description => d.(description := value)
    case StartDate => d.(startDate := value)
    case EndDate => d.(endDate := value)
  }

  /** Company, position, start date and description are `required`; the end date is not. */
  predicate RequiredFilled(d: ExperienceDraft) {
    d.company != "" && d.position != "" && d.startDate != "" && d.description != ""
  }

  /** The columns written on save: the draft, `end_date || null`, and a fresh `updated_at`. */
  datatype ExperiencePayload = ExperiencePayload(
    company: string,
    position: string,
    description: string,
    startDate: string,
    endDate: Option<string>,
    technologies: seq<string>,
    achievements: seq<string>,
    updatedAt: string)

  function PayloadOf(d: ExperienceDraft, now: string): (p: ExperiencePayload)
    ensures p.endDate.None? <==> d.endDate == ""
    ensures p.endDate.Some? ==> p.endDate.value == d.endDate
    ensures p.company == d.company && p.position == d.position && p.description == d.description
    ensures p.startDate == d.startDate && p.updatedAt == now
    ensures p.technologies == d.technologies && p.achievements == d.achievements
  {
    ExperiencePayload(d.company, d.position, d.description, d.startDate,
      if d.endDate == "" then None else Some(d.endDate),
      d.technologies, d.achievements, now)
  }

  /** An update filtered by the edited experience's id, or an insert with a fresh id and creation time. */
  datatype ExperienceSave =
    | Update(id: string, data: ExperiencePayload)
    | Insert(id: string, createdAt: string, data: ExperiencePayload)

  /**
   * Opening an experience and saving it unchanged writes back the same
   * values, provided its dates carry no time part and its end date is not
   * the empty string (which is saved back as null).
   */
  lemma SaveUnchangedRoundTrip(e: Experience, now: string)
    requires 'T' !in e.startDate
    requires e.endDate.Some? ==> 'T' !in e.endDate.value && e.endDate.value != ""
    ensures PayloadOf(DraftOf(e), now)
      == ExperiencePayload(e.company, e.position, e.description, e.startDate, e.endDate,
           e.technologies, e.achievements, now)
  {
    DateOnlyNoT(e.startDate);
    if e.endDate.Some? {
      DateOnlyNoT(e.endDate.value);
    }
  }

  /** An empty end date stored by the database comes back from a save as null: the round trip is not exact there. */
  lemma EmptyEndDateSavedAsNull(e: Experience, now: string)
    requires e.endDate == Some("")
    ensures PayloadOf(DraftOf(e), now).endDate == None
  {
  }

  class ExperienceForm {
    /** The `experience` prop the draft was last initialised from. */
    var experience: Option<Experience>
    var formData: ExperienceDraft
    var newTech: string
    var newAchievement: string
    var saving: bool

    /** Mounting: the effect runs once with the initial prop. */
    constructor (experience: Option<Experience>)
      ensures this.experience == experience
      ensures formData == if experience.Some? then DraftOf(experience.value) else EmptyDraft
      ensures newTech == "" && newAchievement == "" && !saving
    {
      this.experience := experience;
      formData := if experience.Some? then DraftOf(experience.value) else EmptyDraft;
      newTech := "";
      newAchievement := "";
      saving := false;
    }

    /**
     * A new `experience` prop: the effect re-runs only when the prop changed,
     * replacing the draft; the two typing inputs and `saving` are kept.
     */
    method ReceiveExperience(e: Option<Experience>)
      modifies this
      ensures experience == e
      ensures e != old(experience) ==> formData == if e.Some? then DraftOf(e.value) else EmptyDraft
      ensures e == old(experience) ==> formData == old(formData)
      ensures newTech == old(newTech) && newAchievement == old(newAchievement) && saving == old(saving)
    {
      if e != experience {
        experience := e;
        formData := if e.Some? then DraftOf(e.value) else EmptyDraft;
      }
    }

    /** `handleInputChange`. */
    method HandleInputChange(f: TextField, value: string)
      modifies this
      ensures formData == WithText(old(formData), f, value)
      ensures experience == old(experience) && newTech == old(newTech)
      ensures newAchievement == old(newAchievement) && saving == old(saving)
    {
      formData := WithText(formData, f, value);
    }

    method SetNewTech(text: string)
      modifies this
      ensures newTech == text
      ensures experience == old(experience) && formData == old(formData)
      ensures newAchievement == old(newAchievement) && saving == old(saving)
    {
      newTech := text;
    }

    method SetNewAchievement(text: string)
      modifies this
      ensures newAchievement == text
      ensures experience == old(experience) && formData == old(formData)
      ensures newTech == old(newTech) && saving == old(saving)
    {
      newAchievement := text;
    }

    /** `addTechnology` (button or Enter): a trimmed, non-empty, new tag is appended and the input cleared. */
    method AddTechnologyClicked()
      modifies this
      ensures formData == old(formData).(technologies := AddTechnology(old(formData.technologies), old(newTech)))
      ensures newTech == if AcceptsTechnology(old(formData.technologies), old(newTech)) then "" else old(newTech)
      ensures Distinct(old(formData.technologies)) ==> Distinct(formData.technologies)
      ensures experience == old(experience) && newAchievement == old(newAchievement) && saving == old(saving)
    {
      if Distinct(formData.technologies) {
        AddTechnologyKeepsDistinct(formData.technologies, newTech);
      }
      if AcceptsTechnology(formData.technologies, newTech) {
        formData := formData.(technologies := AddTechnology(formData.technologies, newTech));
        newTech := "";
      }
    }

    /** `removeTechnology`: every copy of the tag goes. */
    method RemoveTechnologyClicked(tech: string)
      modifies this
      ensures formData == old(formData).(technologies := RemoveTechnology(old(formData.technologies), tech))
      ensures tech !in formData.technologies
      ensures Distinct(old(formData.technologies)) ==> Distinct(formData.technologies)
      ensures experience == old(experience) && newTech == old(newTech)
      ensures newAchievement == old(newAchievement) && saving == old(saving)
    {
      RemoveTechnologySpec(formData.technologies, tech);
      if Distinct(formData.technologies) {
        RemoveTechnologyKeepsDistinct(formData.technologies, tech);
      }
      formData := formData.(technologies := RemoveTechnology(formData.technologies, tech));
    }

    /** `addAchievement` (button or Enter): any non-blank text is appended trimmed, repeats allowed. */
    method AddAchievementClicked()
      modifies this
      ensures formData == old(formData).(achievements := AddAchievement(old(formData.achievements), old(newAchievement)))
      ensures newAchievement == if AcceptsAchievement(old(newAchievement)) then "" else old(newAchievement)
      ensures experience == old(experience) && newTech == old(newTech) && saving == old(saving)
    {
      if AcceptsAchievement(newAchievement) {
        formData := formData.(achievements := AddAchievement(formData.achievements, newAchievement));
        newAchievement := "";
      }
    }

    /** `removeAchievement`: the entry at `index` goes, the others keep their order. */
    method RemoveAchievementClicked(index: int)
      modifies this
      ensures formData == old(formData).(achievements := RemoveAchievement(old(formData.achievements), index))
      ensures 0 <= index < |old(formData.achievements)| ==>
        formData.achievements == old(formData.achievements)[..index] + old(formData.achievements)[index + 1..]
      ensures experience == old(experience) && newTech == old(newTech)
      ensures newAchievement == old(newAchievement) && saving == old(saving)
    {
      RemoveAtSpec(formData.achievements, index);
      formData := formData.(achievements := RemoveAchievement(formData.achievements, index));
    }

    /** The submit button is disabled while a save is in flight. */
    predicate SubmitDisabled()
      reads this
    {
      saving
    }

    /**
     * Submitting, up to the database request: a disabled button or an
     * incomplete draft sends nothing and changes nothing; otherwise `saving`
     * is set and the payload goes out as an update of the edited experience
     * or as an insert with the fresh id and creation time supplied.
     */
    method BeginSubmit(now: string, freshId: string, createdAt: string) returns (request: Option<ExperienceSave>)
      modifies this
      ensures request.None? <==> old(saving) || !RequiredFilled(formData)
      ensures request.None? ==> saving == old(saving)
      ensures request.Some? ==> saving
      ensures request.Some? && experience.Some? ==>
        request.value == Update(experience.value.id, PayloadOf(formData, now))
      ensures request.Some? && experience.None? ==>
        request.value == Insert(freshId, createdAt, PayloadOf(formData, now))
      ensures experience == old(experience) && formData == old(formData)
      ensures newTech == old(newTech) && newAchievement == old(newAchievement)
    {
      if saving || !RequiredFilled(formData) {
        return None;
      }
      saving := true;
      var data := PayloadOf(formData, now);
      if experience.Some? {
        request := Some(Update(experience.value.id, data));
      } else {
        request := Some(Insert(freshId, createdAt, data));
      }
    }

    /** The database's answer: the form asks to be closed on success; `saving` is cleared either way. */
    method FinishSubmit(reply: Ack) returns (closes: bool)
      modifies this
      ensures closes <==> reply == Done
      ensures !saving
      ensures experience == old(experience) && formData == old(formData)
      ensures newTech == old(newTech) && newAchievement == old(newAchievement)
    {
      saving := false;
      closes := reply == Done;
    }
  }
}
