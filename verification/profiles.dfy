/** The stored user aggregate that the analysis and chat routes load: the person's
    own fields and their profile with education, work experience and languages.
    Dates are reduced to what the routes use: a birth year, and start and end
    instants of a job in milliseconds. */
module Profiles {
  import opened Common

  datatype Education = Education(
    degree: string,
    fieldOfStudy: string,
    institution: string,
    country: string)

  datatype WorkExperience = WorkExperience(
    jobTitle: string,
    company: string,
    country: string,
    startDate: int,
    endDate: Option<int>)

  /** `language` is one of the stored codes (FRENCH, ENGLISH, ...); `level` is a
      free string, offered by the profile form as A1, A2, B1, B2, C1, C2 or NATIVE. */
  datatype LanguageSkill = LanguageSkill(
    language: string,
    level: string,
    hasCertificate: bool,
    certificateName: Option<string>)

  datatype Profile = Profile(
    education: seq<Education>,
    workExperience: seq<WorkExperience>,
    languages: seq<LanguageSkill>)

  datatype Person = Person(
    email: string,
    firstName: Option<string>,
    lastName: Option<string>,
    nationality: Option<string>,
    currentCountry: Option<string>,
    birthYear: Option<int>,
    profile: Option<Profile>)
}
