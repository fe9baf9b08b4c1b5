/**
 * The four record types the site stores in its hosted database, with the
 * fields of the `Project`, `Certificate`, `Experience` and `ProfileData`
 * interfaces. Optional (`?`) and nullable fields are `Option`s; timestamps
 * and identifiers are the ISO and UUID strings the client sends.
 */
module Records {
  import opened Wrappers

  datatype Project = Project(
    id: string,
    title: string,
    description: string,
    technologies: seq<string>,
    category: string,
    imageUrl: Option<string>,
    demoUrl: Option<string>,
    githubUrl: Option<string>,
    featured: bool,
    createdAt: string,
    updatedAt: string)

  datatype Certificate = Certificate(
    id: string,
    title: string,
    institution: string,
    date: string,
    imageUrl: string,
    description: Option<string>,
    createdAt: string,
    updatedAt: string)

  /** `endDate` absent (or null) means the position is the current one. */
  datatype Experience = Experience(
    id: string,
    company: string,
    position: string,
    description: string,
    startDate: string,
    endDate: Option<string>,
    technologies: seq<string>,
    achievements: seq<string>,
    createdAt: string,
    updatedAt: string)

  datatype Profile = Profile(
    id: string,
    name: string,
    title: string,
    bio: string,
    email: string,
    phone: Option<string>,
    location: Option<string>,
    linkedinUrl: Option<string>,
    githubUrl: Option<string>,
    profileImageUrl: Option<string>,
    cvUrl: Option<string>,
    createdAt: string,
    updatedAt: string)
}
