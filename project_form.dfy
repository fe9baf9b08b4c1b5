/**
 * The project editor dialog of the admin panel. It holds a draft of a
 * project, a technology input, an optionally chosen image file with its
 * preview, and submits either an update of the edited project or an insert.
 * The dialog is mounted afresh each time the projects list opens it.
 */
module ProjectFormComponent {
  import opened Wrappers
  import opened Records
  import opened Remote
  import opened ImageUpload
  import opened Seqs
  import opened DraftLists

  /** `formData`: a project without id and timestamps, its optional URLs read as '' when absent. */
  datatype ProjectDraft = ProjectDraft(
    title: string,
    description: string,
    technologies: seq<string>,
    category: string,
    imageUrl: string,
    demoUrl: string,
    githubUrl: string,
    featured: bool)

  /** The draft a new project starts from. */
  const EmptyDraft := ProjectDraft("", "", [], "", "", "", "", false)

  /** The category options of the select (besides the empty "choose a category" option). */
  const Categories: seq<string> := ["programming", "database", "design", "networks", "tools"]

  /** The draft an existing project opens with: its fields, with absent URLs as ''. */
  function DraftOf(p: Project): (d: ProjectDraft)
    ensures d.title == p.title && d.description == p.description && d.category == p.category
    ensures d.technologies == p.technologies && d.featured == p.featured
    ensures d.imageUrl == OrEmpty(p.imageUrl) && d.demoUrl == OrEmpty(p.demoUrl)
    ensures d.githubUrl == OrEmpty(p.githubUrl)
  {
    ProjectDraft(p.title, p.description, p.technologies, p.category,
      OrEmpty(p.imageUrl), OrEmpty(p.demoUrl), OrEmpty(p.githubUrl), p.featured)
  }

  /** The text inputs and the select, by their `name` attribute. */
  datatype TextField = Title | Description | Category | ImageUrl | DemoUrl | GithubUrl

  /** `{...prev, [name]: value}` for a text input or the select. */
  function WithText(d: ProjectDraft, f: TextField, value: string): ProjectDraft {
    match f
    case Title => d.(title := value)
    case Description => d.(description := value)
    case Category => d.(category := value)
    case ImageUrl => d.(imageUrl := value)
    case DemoUrl => d.(demoUrl := value)
    case GithubUrl => d.(githubUrl := value)
  }

  /** The browser lets the form submit only when the `required` title, description and category are filled in. */
  predicate RequiredFilled(d: ProjectDraft) {
    d.title != "" && d.description != "" && d.category != ""
  }

  /** What `saveProject` sends: an update filtered by the edited project's id, or an insert. */
  datatype ProjectSave = Update(id: string, data: ProjectDraft) | Insert(data: ProjectDraft)

  class ProjectForm {
    /** The `project` prop: the project being edited, or none for a new one. */
    const project: Option<Project>
    var formData: ProjectDraft
    var techInput: string
    var imageFile: Option<ImageFile>
    var imagePreview: string
    var isUploading: bool

    /**
     * Once a chosen file has been read, the draft's image URL is the file's
     * data URL, the same text the preview shows.
     */
    ghost predicate Valid()
      reads this
    {
      imageFile.Some? && !isUploading ==> formData.imageUrl == imagePreview
    }

    /** Mounting: the empty draft, then the edited project's fields and, when it has one, its image as preview. */
    constructor (project: Option<Project>)
      ensures Valid()
      ensures this.project == project
      ensures formData == if project.Some? then DraftOf(project.value) else EmptyDraft
      ensures imagePreview == if project.Some? then OrEmpty(project.value.imageUrl) else ""
      ensures techInput == "" && imageFile == None && !isUploading
    {
      this.project := project;
      techInput := "";
      imageFile := None;
      isUploading := false;
      if project.Some? {
        formData := DraftOf(project.value);
        imagePreview := OrEmpty(project.value.imageUrl);
      } else {
        formData := EmptyDraft;
        imagePreview := "";
      }
    }

    /** The URL input shows '' while a file is chosen. */
    function UrlFieldValue(): (v: string)
      reads this
      ensures imageFile.Some? ==> v == ""
      ensures imageFile.None? ==> v == formData.imageUrl
    {
      if imageFile.Some? then "" else formData.imageUrl
    }

    /** The URL input is disabled while a file is chosen: a file and a typed URL exclude each other. */
    predicate UrlFieldDisabled()
      reads this
    {
      imageFile.Some?
    }

    /**
     * `handleInputChange` for a text input or the select. The image URL input
     * sends no change while it is disabled.
     */
    method HandleInputChange(f: TextField, value: string)
      requires Valid()
      requires f == ImageUrl ==> !UrlFieldDisabled()
      modifies this
      ensures Valid()
      ensures formData == WithText(old(formData), f, value)
      ensures techInput == old(techInput) && imageFile == old(imageFile)
      ensures imagePreview == old(imagePreview) && isUploading == old(isUploading)
    {
      formData := WithText(formData, f, value);
    }

    /** `handleInputChange` for the "featured" checkbox. */
    method HandleFeaturedChange(checked: bool)
      requires Valid()
      modifies this
      ensures Valid()
      ensures formData == old(formData).(featured := checked)
      ensures techInput == old(techInput) && imageFile == old(imageFile)
      ensures imagePreview == old(imagePreview) && isUploading == old(isUploading)
    {
      formData := formData.(featured := checked);
    }

    /** Typing in the technology input. */
    method SetTechInput(text: string)
      requires Valid()
      modifies this
      ensures Valid()
      ensures techInput == text
      ensures formData == old(formData) && imageFile == old(imageFile)
      ensures imagePreview == old(imagePreview) && isUploading == old(isUploading)
    {
      techInput := text;
    }

    /**
     * `handleAddTechnology`: a trimmed, non-empty, new entry is appended and
     * the input cleared; otherwise nothing changes.
     */
    method HandleAddTechnology()
      requires Valid()
      modifies this
      ensures Valid()
      ensures formData == old(formData).(technologies := AddTechnology(old(formData.technologies), old(techInput)))
      ensures techInput == if AcceptsTechnology(old(formData.technologies), old(techInput)) then "" else old(techInput)
      ensures Distinct(old(formData.technologies)) ==> Distinct(formData.technologies)
      ensures imageFile == old(imageFile) && imagePreview == old(imagePreview) && isUploading == old(isUploading)
    {
      if Distinct(formData.technologies) {
        AddTechnologyKeepsDistinct(formData.technologies, techInput);
      }
      if AcceptsTechnology(formData.technologies, techInput) {
        formData := formData.(technologies := AddTechnology(formData.technologies, techInput));
        techInput := "";
      }
    }

    /** A key press in the technology input: Enter adds exactly as the button does; any other key changes nothing. */
    method HandleTechKeyPress(key: string)
      requires Valid()
      modifies this
      ensures Valid()
      ensures key == "Enter" ==>
        formData == old(formData).(technologies := AddTechnology(old(formData.technologies), old(techInput)))
        && techInput == if AcceptsTechnology(old(formData.technologies), old(techInput)) then "" else old(techInput)
      ensures key != "Enter" ==> formData == old(formData) && techInput == old(techInput)
      ensures imageFile == old(imageFile) && imagePreview == old(imagePreview) && isUploading == old(isUploading)
    {
      if key == "Enter" {
        HandleAddTechnology();
      }
    }

    /** `handleRemoveTechnology`: every entry equal to `tech` goes, the rest stay in order. */
    method HandleRemoveTechnology(tech: string)
      requires Valid()
      modifies this
      ensures Valid()
      ensures formData == old(formData).(technologies := RemoveTechnology(old(formData.technologies), tech))
      ensures tech !in formData.technologies
      ensures Distinct(old(formData.technologies)) ==> Distinct(formData.technologies)
      ensures techInput == old(techInput) && imageFile == old(imageFile)
      ensures imagePreview == old(imagePreview) && isUploading == old(isUploading)
    {
      RemoveTechnologySpec(formData.technologies, tech);
      if Distinct(formData.technologies) {
        RemoveTechnologyKeepsDistinct(formData.technologies, tech);
      }
      formData := formData.(technologies := RemoveTechnology(formData.technologies, tech));
    }

    /**
     * `handleImageUpload`, up to the start of the file read: no file, a file
     * that is not an image, or one over 5 MiB changes nothing; an accepted
     * file is recorded and the upload marked in progress.
     */
    method HandleImageUpload(file: Option<ImageFile>) returns (verdict: Option<Verdict>)
      requires Valid()
      modifies this
      ensures Valid()
      ensures file.None? ==> verdict.None?
      ensures file.Some? ==> verdict == Some(CheckTypeThenSize(file.value))
      ensures verdict == Some(Accepted) ==> imageFile == file && isUploading
      ensures verdict != Some(Accepted) ==> imageFile == old(imageFile) && isUploading == old(isUploading)
      ensures formData == old(formData) && imagePreview == old(imagePreview) && techInput == old(techInput)
    {
      if file.None? {
        return None;
      }
      verdict := Some(CheckTypeThenSize(file.value));
      if verdict == Some(Accepted) {
        isUploading := true;
        imageFile := file;
      }
    }

    /** The file reader's `onload`: its data URL becomes both the preview and the draft's image URL. */
    method ImageLoaded(dataUrl: string)
      requires Valid()
      modifies this
      ensures Valid()
      ensures imagePreview == dataUrl && formData == old(formData).(imageUrl := dataUrl)
      ensures !isUploading
      ensures imageFile == old(imageFile) && techInput == old(techInput)
    {
      imagePreview := dataUrl;
      formData := formData.(imageUrl := dataUrl);
      isUploading := false;
    }

    /** `handleRemoveImage`: no file, no preview, no image URL. */
    method HandleRemoveImage()
      requires Valid()
      modifies this
      ensures Valid()
      ensures imageFile.None? && imagePreview == ""
      ensures formData == old(formData).(imageUrl := "")
      ensures techInput == old(techInput) && isUploading == old(isUploading)
    {
      imageFile := None;
      imagePreview := "";
      formData := formData.(imageUrl := "");
    }

    /**
     * Submitting: the browser blocks an incomplete draft; otherwise the draft
     * is sent, its image URL being the chosen file read as a data URL
     * (`fileDataUrl`) when there is a file. An existing project is updated by
     * its id, a new one inserted; the dialog closes only when the database
     * reports no error. Nothing of the dialog's own state changes.
     */
    method HandleSubmit(fileDataUrl: string, reply: Ack) returns (request: Option<ProjectSave>, closes: bool)
      requires Valid()
      ensures request.None? <==> !RequiredFilled(formData)
      ensures request.Some? ==>
        (request.value.Update? <==> project.Some?)
        && (project.Some? ==> request.value.id == project.value.id)
        && request.value.data.imageUrl == (if imageFile.Some? then fileDataUrl else formData.imageUrl)
        && request.value.data.(imageUrl := formData.imageUrl) == formData
      // Once the first read of the file has finished, the second read sends
      // the draft unchanged exactly when it yields the preview's data URL.
      ensures request.Some? && imageFile.Some? && !isUploading ==>
        (request.value.data == formData <==> fileDataUrl == imagePreview)
      ensures closes <==> request.Some? && reply == Done
    {
      if !RequiredFilled(formData) {
        return None, false;
      }
      var data := if imageFile.Some? then formData.(imageUrl := fileDataUrl) else formData;
      if project.Some? {
        request := Some(Update(project.value.id, data));
      } else {
        request := Some(Insert(data));
      }
      closes := reply == Done;
    }
  }
}
