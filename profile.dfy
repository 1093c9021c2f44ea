/** Profiles (`api/profile`): the profile-field builder and skills parser, create-or-update with at
    most one profile per user, and the experience and education lists. */
module Profiles {
  import opened Common
  import opened JsArray
  import opened JsString

  /** The request body of `POST api/profile`; `None` is a field the body leaves out. */
  datatype ProfileInput = ProfileInput(
    company: Option<string>, website: Option<string>, location: Option<string>,
    bio: Option<string>, status: Option<string>, githubusername: Option<string>,
    skills: Option<string>,
    youtube: Option<string>, facebook: Option<string>, twitter: Option<string>,
    instagram: Option<string>, linkedin: Option<string>)

  datatype Social = Social(
    youtube: Option<string>, twitter: Option<string>, facebook: Option<string>,
    linkedin: Option<string>, instagram: Option<string>)

  /** The `profileFields` object; `None` is a key the object does not have. */
  datatype ProfileFields = ProfileFields(
    user: Id,
    company: Option<string>, website: Option<string>, location: Option<string>,
    bio: Option<string>, status: Option<string>, githubusername: Option<string>,
    skills: Option<seq<string>>,
    social: Social)

  datatype ExperienceInput = ExperienceInput(
    title: Option<string>, company: Option<string>, location: Option<string>,
    from: Option<string>, to: Option<string>, current: Option<bool>, description: Option<string>)

  datatype Experience = Experience(
    id: Id, title: string, company: string, location: Option<string>,
    from: string, to: Option<string>, current: Option<bool>, description: Option<string>)

  datatype EducationInput = EducationInput(
    school: Option<string>, degree: Option<string>, fieldofstudy: Option<string>,
    from: Option<string>, to: Option<string>, current: Option<bool>, description: Option<string>)

  datatype Education = Education(
    id: Id, school: string, degree: string, fieldofstudy: string,
    from: string, to: Option<string>, current: Option<bool>, description: Option<string>)

  function ExperienceId(e: Experience): Id { e.id }
  function EducationId(e: Education): Id { e.id }

  const StatusRequired := "Status is required"
  const SkillsRequired := "Skills is required"
  const TitleRequired := "Title is required"
  const CompanyRequired := "Company is required"
  const FromRequired := "From date is required"
  const SchoolRequired := "School is required"
  const DegreeRequired := "Degree is required"
  const FieldOfStudyRequired := "Field of Study is required"
  const NoSuchEntity := "No such entity"

  /** `target` holds `source` exactly when `source` is truthy, and nothing otherwise. */
  predicate CopiedIfTruthy(target: Option<string>, source: Option<string>) {
    (target.Some? <==> Present(source)) && (target.Some? ==> target == source)
  }

  /** `skills.split(',').map(skill => skill.trim())`. */
  function ParseSkills(skills: string): (r: seq<string>)
    ensures |r| == Occurrences(skills, ',') + 1
    ensures forall i :: 0 <= i < |r| ==> ',' !in r[i]
    ensures forall i :: 0 <= i < |r| ==> r[i] == [] || (!IsWhitespace(r[i][0]) && !IsWhitespace(r[i][|r[i]| - 1]))
    ensures |r| == |Split(skills, ',')| && forall i :: 0 <= i < |r| ==> r[i] == Trim(Split(skills, ',')[i])
  {
    var pieces := Split(skills, ',');
    SplitCount(skills, ',');
    var r := Map(pieces, Trim);
    forall i | 0 <= i < |r| ensures ',' !in r[i] {
      assert r[i] == Trim(pieces[i]);
      var a := |pieces[i]| - |TrimStart(pieces[i])|;
      assert r[i] == pieces[i][a..a + |r[i]|];
    }
    r
  }

  /** The fields a `POST api/profile` body yields: `user` always, every optional field only when its
      input is truthy, `skills` parsed, and a `social` object that is always there. */
  function ProfileFieldsFor(caller: Id, input: ProfileInput): (f: ProfileFields)
    ensures f.user == caller
    ensures CopiedIfTruthy(f.company, input.company) && CopiedIfTruthy(f.website, input.website)
    ensures CopiedIfTruthy(f.location, input.location) && CopiedIfTruthy(f.bio, input.bio)
    ensures CopiedIfTruthy(f.status, input.status) && CopiedIfTruthy(f.githubusername, input.githubusername)
    ensures f.skills.Some? <==> Present(input.skills)
    ensures f.skills.Some? ==> f.skills.value == ParseSkills(input.skills.value)
    ensures f.skills.Some? ==> |f.skills.value| == Occurrences(input.skills.value, ',') + 1
    ensures f.social == SocialFor(input)
  {
    ProfileFields(
      caller,
      IfPresent(input.company), IfPresent(input.website), IfPresent(input.location),
      IfPresent(input.bio), IfPresent(input.status), IfPresent(input.githubusername),
      if Present(input.skills) then Some(ParseSkills(input.skills.value)) else None,
      SocialFor(input))
  }

  /** The `social` object of a `POST api/profile` body: each link only when its input is truthy. */
  function SocialFor(input: ProfileInput): (s: Social)
    ensures CopiedIfTruthy(s.youtube, input.youtube) && CopiedIfTruthy(s.twitter, input.twitter)
    ensures CopiedIfTruthy(s.facebook, input.facebook) && CopiedIfTruthy(s.linkedin, input.linkedin)
    ensures CopiedIfTruthy(s.instagram, input.instagram)
  {
    Social(IfPresent(input.youtube), IfPresent(input.twitter), IfPresent(input.facebook),
           IfPresent(input.linkedin), IfPresent(input.instagram))
  }

  /** Builds `profileFields` key by key, as the handler does. */
  method BuildProfileFields(caller: Id, input: ProfileInput) returns (f: ProfileFields)
    ensures f == ProfileFieldsFor(caller, input)
  {
    f := ProfileFields("", None, None, None, None, None, None, None, Social(None, None, None, None, None));
    f := f.(user := caller);
    if Present(input.company) { f := f.(company := input.company); }
    if Present(input.website) { f := f.(website := input.website); }
    if Present(input.location) { f := f.(location := input.location); }
    if Present(input.bio) { f := f.(bio := input.bio); }
    if Present(input.status) { f := f.(status := input.status); }
    if Present(input.githubusername) { f := f.(githubusername := input.githubusername); }
    if Present(input.skills) {
      f := f.(skills := Some(ParseSkills(input.skills.value)));
    }
    var social := BuildSocial(input);
    f := f.(social := social);
  }

  /** Builds `profileFields.social`: starts from `{}` and adds each truthy link. */
  method BuildSocial(input: ProfileInput) returns (s: Social)
    ensures s == SocialFor(input)
  {
    s := Social(None, None, None, None, None);
    if Present(input.youtube) { s := s.(youtube := input.youtube); }
    if Present(input.twitter) { s := s.(twitter := input.twitter); }
    if Present(input.facebook) { s := s.(facebook := input.facebook); }
    if Present(input.linkedin) { s := s.(linkedin := input.linkedin); }
    if Present(input.instagram) { s := s.(instagram := input.instagram); }
  }

  /** After `$set`, a key the update carries has the update's value and a key it lacks keeps the
      stored value. */
  predicate SetKey<T(==)>(merged: Option<T>, stored: Option<T>, upd: Option<T>) {
    (upd.Some? ==> merged == upd) && (upd.None? ==> merged == stored)
  }

  /** The `$set` update: every key the new fields carry replaces the stored one (`social` as a
      whole); keys they lack keep their stored value. */
  function Merge(stored: ProfileFields, upd: ProfileFields): (m: ProfileFields)
    ensures m.user == upd.user && m.social == upd.social
    ensures SetKey(m.company, stored.company, upd.company) && SetKey(m.website, stored.website, upd.website)
    ensures SetKey(m.location, stored.location, upd.location) && SetKey(m.bio, stored.bio, upd.bio)
    ensures SetKey(m.status, stored.status, upd.status)
    ensures SetKey(m.githubusername, stored.githubusername, upd.githubusername)
    ensures SetKey(m.skills, stored.skills, upd.skills)
  {
    ProfileFields(
      upd.user,
      if upd.company.Some? then upd.company else stored.company,
      if upd.website.Some? then upd.website else stored.website,
      if upd.location.Some? then upd.location else stored.location,
      if upd.bio.Some? then upd.bio else stored.bio,
      if upd.status.Some? then upd.status else stored.status,
      if upd.githubusername.Some? then upd.githubusername else stored.githubusername,
      if upd.skills.Some? then upd.skills else stored.skills,
      upd.social)
  }

  /** Applying the same update twice is the same as applying it once. */
  lemma MergeIdempotent(stored: ProfileFields, upd: ProfileFields)
    ensures Merge(Merge(stored, upd), upd) == Merge(stored, upd)
  {
  }

  /** `errs` holds only messages of `checks`, each at most once. */
  predicate OnlyOnce(errs: seq<string>, checks: seq<string>) {
    && (forall m :: m in errs ==> m in checks)
    && forall i, j :: 0 <= i < j < |errs| ==> errs[i] != errs[j]
  }

  const ProfileChecks := [StatusRequired, SkillsRequired]
  const ExperienceChecks := [TitleRequired, CompanyRequired, FromRequired]
  const EducationChecks := [SchoolRequired, DegreeRequired, FieldOfStudyRequired, FromRequired]

  /** The profile validator: `status` then `skills` must be non-empty. */
  function ProfileErrors(input: ProfileInput): (errs: seq<string>)
    ensures OnlyOnce(errs, ProfileChecks)
    ensures errs == [] <==> Present(input.status) && Present(input.skills)
    ensures StatusRequired in errs <==> !Present(input.status)
    ensures SkillsRequired in errs <==> !Present(input.skills)
    ensures !Present(input.status) ==> errs[0] == StatusRequired
  {
    (if Present(input.status) then [] else [StatusRequired])
    + (if Present(input.skills) then [] else [SkillsRequired])
  }

  /** The experience validator: `title`, `company` and `from` must be non-empty. */
  function ExperienceErrors(input: ExperienceInput): (errs: seq<string>)
    ensures OnlyOnce(errs, ExperienceChecks)
    ensures errs == [] <==> Present(input.title) && Present(input.company) && Present(input.from)
    ensures TitleRequired in errs <==> !Present(input.title)
    ensures CompanyRequired in errs <==> !Present(input.company)
    ensures FromRequired in errs <==> !Present(input.from)
    ensures !Present(input.title) ==> errs[0] == TitleRequired
    ensures Present(input.title) && !Present(input.company) ==> errs[0] == CompanyRequired
    ensures !Present(input.from) ==> errs[|errs| - 1] == FromRequired
  {
    (if Present(input.title) then [] else [TitleRequired])
    + (if Present(input.company) then [] else [CompanyRequired])
    + (if Present(input.from) then [] else [FromRequired])
  }

  /** The education validator: `school`, `degree`, `fieldofstudy` and `from` must be non-empty. */
  function EducationErrors(input: EducationInput): (errs: seq<string>)
    ensures OnlyOnce(errs, EducationChecks)
    ensures errs == [] <==> Present(input.school) && Present(input.degree)
                            && Present(input.fieldofstudy) && Present(input.from)
    ensures SchoolRequired in errs <==> !Present(input.school)
    ensures DegreeRequired in errs <==> !Present(input.degree)
    ensures FieldOfStudyRequired in errs <==> !Present(input.fieldofstudy)
    ensures FromRequired in errs <==> !Present(input.from)
    ensures !Present(input.school) ==> errs[0] == SchoolRequired
    ensures Present(input.school) && !Present(input.degree) ==> errs[0] == DegreeRequired
    ensures !Present(input.school) && !Present(input.degree) ==> errs[1] == DegreeRequired
    ensures Present(input.school) && Present(input.degree) && !Present(input.fieldofstudy) ==>
              errs[0] == FieldOfStudyRequired
    ensures !Present(input.from) ==> errs[|errs| - 1] == FromRequired
  {
    (if Present(input.school) then [] else [SchoolRequired])
    + (if Present(input.degree) then [] else [DegreeRequired])
    + (if Present(input.fieldofstudy) then [] else [FieldOfStudyRequired])
    + (if Present(input.from) then [] else [FromRequired])
  }

  /** The `newExp` object of a validated body, with the id the store gives it. */
  function NewExperience(entryId: Id, input: ExperienceInput): Experience
    requires ExperienceErrors(input) == []
  {
    Experience(entryId, input.title.value, input.company.value, input.location,
               input.from.value, input.to, input.current, input.description)
  }

  /** The `newEdu` object of a validated body, with the id the store gives it. */
  function NewEducation(entryId: Id, input: EducationInput): Education
    requires EducationErrors(input) == []
  {
    Education(entryId, input.school.value, input.degree.value, input.fieldofstudy.value,
              input.from.value, input.to, input.current, input.description)
  }

  /** A profile, as loaded from the store; `experience` and `education` are changed in place. */
  class Profile {
    const user: Id
    var details: ProfileFields
    var experience: seq<Experience>
    var education: seq<Education>

    constructor (fields: ProfileFields)
      ensures user == fields.user && details == fields
      ensures experience == [] && education == []
    {
      user := fields.user;
      details := fields;
      experience, education := [], [];
    }

    /** `PUT api/profile/experience`; `entryId` is the id of the new sub-document. */
    method AddExperience(input: ExperienceInput, entryId: Id) returns (r: Reply)
      modifies this`experience
      ensures ExperienceErrors(input) != [] ==>
                r == Invalid(ExperienceErrors(input)) && experience == old(experience)
      ensures ExperienceErrors(input) == [] ==>
                r == Success && experience == [NewExperience(entryId, input)] + old(experience)
    {
      var errs := ExperienceErrors(input);
      if errs != [] {
        return Invalid(errs);
      }
      var newExp := Experience(entryId, input.title.value, input.company.value, input.location,
                               input.from.value, input.to, input.current, input.description);
      experience := [newExp] + experience;
      r := Success;
    }

    /** `DELETE api/profile/experience/:exp_id`. */
    method DeleteExperience(expId: Id) returns (r: Reply)
      modifies this`experience
      ensures expId !in Map(old(experience), ExperienceId) ==>
                r == Status(400, NoSuchEntity) && experience == old(experience)
      ensures expId in Map(old(experience), ExperienceId) ==>
                r == Success && experience == RemoveFirst(old(experience), ExperienceId, expId)
    {
      var removeIndex := IndexOf(Map(experience, ExperienceId), expId);
      if removeIndex == -1 {
        return Status(400, NoSuchEntity);
      }
      SpliceAtIndexOfIsRemoveFirst(experience, ExperienceId, expId);
      experience := RemoveAt(experience, removeIndex);
      r := Success;
    }

    /** `PUT api/profile/education`; `entryId` is the id of the new sub-document. */
    method AddEducation(input: EducationInput, entryId: Id) returns (r: Reply)
      modifies this`education
      ensures EducationErrors(input) != [] ==>
                r == Invalid(EducationErrors(input)) && education == old(education)
      ensures EducationErrors(input) == [] ==>
                r == Success && education == [NewEducation(entryId, input)] + old(education)
    {
      var errs := EducationErrors(input);
      if errs != [] {
        return Invalid(errs);
      }
      var newEdu := Education(entryId, input.school.value, input.degree.value, input.fieldofstudy.value,
                              input.from.value, input.to, input.current, input.description);
      education := [newEdu] + education;
      r := Success;
    }

    /** `DELETE api/profile/education/:edu_id`. */
    method DeleteEducation(eduId: Id) returns (r: Reply)
      modifies this`education
      ensures eduId !in Map(old(education), EducationId) ==>
                r == Status(400, NoSuchEntity) && education == old(education)
      ensures eduId in Map(old(education), EducationId) ==>
                r == Success && education == RemoveFirst(old(education), EducationId, eduId)
    {
      var removeIndex := IndexOf(Map(education, EducationId), eduId);
      if removeIndex == -1 {
        return Status(400, NoSuchEntity);
      }
      SpliceAtIndexOfIsRemoveFirst(education, EducationId, eduId);
      education := RemoveAt(education, removeIndex);
      r := Success;
    }
  }

  /** The profile collection, keyed by profile id. */
  class ProfileStore {
    var profiles: map<Id, Profile>

    /** No user has two profiles. */
    ghost predicate OnePerUser()
      reads this
    {
      forall a, b :: a in profiles && b in profiles && profiles[a].user == profiles[b].user ==> a == b
    }

    /** Some stored profile belongs to `u` (`Profile.findOne({ user: u })`). */
    predicate HasProfile(u: Id)
      reads this
      ensures HasProfile(u) <==> u in set k | k in profiles :: profiles[k].user
    {
      exists k :: k in profiles && profiles[k].user == u
    }

    constructor ()
      ensures profiles == map[] && OnePerUser()
    {
      profiles := map[];
    }

    /** `POST api/profile`: updates the caller's profile when there is one, and otherwise saves a
        new one under `newId`, the id the store assigns. */
    method CreateOrUpdate(caller: Id, input: ProfileInput, newId: Id) returns (r: Reply)
      requires newId !in profiles
      modifies this, profiles.Values`details
      ensures ProfileErrors(input) != [] ==>
                r == Invalid(ProfileErrors(input)) && profiles == old(profiles)
                && forall k :: k in profiles ==> profiles[k].details == old(profiles[k].details)
      ensures ProfileErrors(input) == [] ==> r == Success && HasProfile(caller)
      ensures ProfileErrors(input) == [] && old(HasProfile(caller)) ==>
                && profiles == old(profiles)
                && forall k :: k in profiles && profiles[k].user != caller ==>
                     profiles[k].details == old(profiles[k].details)
      ensures ProfileErrors(input) == [] && old(HasProfile(caller)) && old(OnePerUser()) ==>
                forall k :: k in profiles && profiles[k].user == caller ==>
                  profiles[k].details == Merge(old(profiles[k].details), ProfileFieldsFor(caller, input))
      ensures ProfileErrors(input) == [] && !old(HasProfile(caller)) ==>
                && profiles.Keys == old(profiles).Keys + {newId}
                && (forall k :: k in old(profiles) ==> profiles[k] == old(profiles)[k])
                && (forall k :: k in old(profiles) ==> profiles[k].details == old(profiles[k].details))
                && fresh(profiles[newId]) && profiles[newId].user == caller
                && profiles[newId].details == ProfileFieldsFor(caller, input)
                && profiles[newId].experience == [] && profiles[newId].education == []
      ensures old(OnePerUser()) ==> OnePerUser()
    {
      var errs := ProfileErrors(input);
      if errs != [] {
        return Invalid(errs);
      }
      var profileFields := BuildProfileFields(caller, input);
      if exists k :: k in profiles && profiles[k].user == caller {
        var k :| k in profiles && profiles[k].user == caller;
        var profile := profiles[k];
        profile.details := Merge(profile.details, profileFields);
        return Success;
      }
      var profile := new Profile(profileFields);
      profiles := profiles[newId := profile];
      assert newId in profiles && profiles[newId].user == caller;
      r := Success;
    }
  }

  /** Adding an entry then deleting it by its id gives the old list back. */
  lemma DeleteUndoesAddExperience(entry: Experience, entries: seq<Experience>)
    ensures RemoveFirst([entry] + entries, ExperienceId, entry.id) == entries
  {
    PrependThenRemoveFirst(entry, entries, ExperienceId);
  }

  /** Adding an entry then deleting it by its id gives the old list back. */
  lemma DeleteUndoesAddEducation(entry: Education, entries: seq<Education>)
    ensures RemoveFirst([entry] + entries, EducationId, entry.id) == entries
  {
    PrependThenRemoveFirst(entry, entries, EducationId);
  }
}
