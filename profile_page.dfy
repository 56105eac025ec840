/**
  The profile page's form state: how it is first filled, how one input
  changes it, the comma-separated skills input (parsed on every change and
  shown joined with ", "), and the simulated file upload.
 */
module ProfilePage {
  import opened Wrappers
  import opened Records
  import opened Seqs
  import opened Text
  import JobSeekerDashboard

  /** The job seeker form the page starts from when there is no stored profile. */
  const EmptySeekerForm: Profile := map[
    "firstName" := Text(""), "lastName" := Text(""), "phone" := Text(""), "location" := Text(""),
    "skills" := List([]), "experience" := Text(""), "education" := Text(""), "resumeUrl" := Text(""),
    "profileComplete" := Flag(false)]

  /** The employer form the page starts from when there is no stored profile. */
  const EmptyEmployerForm: Profile := map[
    "companyName" := Text(""), "industry" := Text(""), "companySize" := Text(""), "website" := Text(""),
    "description" := Text(""), "logoUrl" := Text(""), "verificationStatus" := Text("pending")]

  /**
    The initialisation effect: the stored profile when there is one; else,
    for a signed-in job seeker or employer, the empty form of that role;
    otherwise the form stays as it was.
   */
  function InitialForm(userProfile: Option<Profile>, currentUser: Option<User>, previous: Profile): (form: Profile)
    ensures userProfile.Some? ==> form == userProfile.value
    ensures userProfile.None? && currentUser.Some? && currentUser.value.role == "jobSeeker" ==>
      Field(form, "skills") == List([]) && Field(form, "profileComplete") == Flag(false)
    ensures userProfile.None? && currentUser.Some? && currentUser.value.role == "employer" ==>
      Field(form, "verificationStatus") == Text("pending")
    ensures userProfile.None? && (currentUser.None? || (currentUser.value.role != "jobSeeker" && currentUser.value.role != "employer")) ==>
      form == previous
  {
    if userProfile.Some? then userProfile.value
    else if currentUser.None? then previous
    else if currentUser.value.role == "jobSeeker" then EmptySeekerForm
    else if currentUser.value.role == "employer" then EmptyEmployerForm
    else previous
  }

  /**
    A fresh job seeker form has every text field empty, scores 0 on the
    dashboard's completion check, and shows an empty skills input.
   */
  lemma EmptySeekerFormIsBlank()
    ensures forall field :: field in EmptySeekerForm && EmptySeekerForm[field].Text? ==> EmptySeekerForm[field].text == ""
    ensures JobSeekerDashboard.ProfileCompletion(Some(EmptySeekerForm)) == 0
    ensures SkillsText(EmptySeekerForm) == ""
  {
  }

  /** `{ ...prev, [field]: value }`. */
  function WithField(form: Profile, field: string, value: Value): (r: Profile)
    ensures Field(r, field) == value
    ensures forall other :: other != field ==> Field(r, other) == Field(form, other)
    ensures r.Keys == form.Keys + {field}
  {
    form[field := value]
  }

  /** Two changes to the same field: the second wins. */
  lemma LastChangeWins(form: Profile, field: string, first: Value, second: Value)
    ensures WithField(WithField(form, field, first), field, second) == WithField(form, field, second)
  {
  }

  /** Changes to two different fields can be made in either order. */
  lemma ChangesToDifferentFieldsCommute(form: Profile, f: string, v: Value, g: string, w: Value)
    requires f != g
    ensures WithField(WithField(form, f, v), g, w) == WithField(WithField(form, g, w), f, v)
  {
  }

  function TrimAll(pieces: seq<string>): (r: seq<string>)
    ensures |r| == |pieces|
    ensures forall i :: 0 <= i < |pieces| ==> r[i] == Trim(pieces[i])
  {
    if pieces == [] then [] else [Trim(pieces[0])] + TrimAll(pieces[1..])
  }

  lemma {:induction false} TrimAllAppend(a: seq<string>, b: seq<string>)
    ensures TrimAll(a + b) == TrimAll(a) + TrimAll(b)
  {
    if a != [] {
      assert (a + b)[1..] == a[1..] + b;
      TrimAllAppend(a[1..], b);
    }
  }

  function IsNonEmpty(s: string): bool {
    s != ""
  }

  /** `skillsText.split(",").map(skill => skill.trim()).filter(skill => skill)`. */
  function ParseSkills(text: string): (skills: seq<string>)
    ensures forall skill :: skill in skills ==> skill != ""
    ensures |skills| <= |Split(text)|
  {
    Keep(TrimAll(Split(text)), IsNonEmpty)
  }

  /** A skill as the parser produces it: non-empty, trimmed, without a comma. */
  predicate IsSkill(s: string) {
    s != "" && !IsSpace(s[0]) && !IsSpace(s[|s| - 1]) && ',' !in s
  }

  /** Every parsed skill is non-empty, has no surrounding whitespace and no comma. */
  lemma ParsedSkillsAreClean(text: string)
    ensures forall skill :: skill in ParseSkills(text) ==> IsSkill(skill)
  {
    var pieces := Split(text);
    forall skill | skill in ParseSkills(text) ensures IsSkill(skill) {
      assert skill in TrimAll(pieces);
      var i :| 0 <= i < |pieces| && TrimAll(pieces)[i] == skill;
      assert pieces[i] in pieces;
    }
  }

  /** The skills on each side of a comma come out in input order. */
  lemma ParseSkillsAppend(a: string, b: string)
    ensures ParseSkills(a + [','] + b) == ParseSkills(a) + ParseSkills(b)
  {
    SplitAppend(a, b);
    TrimAllAppend(Split(a), Split(b));
    KeepAppend(TrimAll(Split(a)), TrimAll(Split(b)), IsNonEmpty);
  }

  /** A leading space changes nothing: it is trimmed off the first piece. */
  lemma ParseSkillsLeadingSpace(c: char, text: string)
    requires IsSpace(c)
    ensures ParseSkills([c] + text) == ParseSkills(text)
  {
    var pieces := Split(text);
    SplitCons(c, text);
    assert ([c] + pieces[0])[1..] == pieces[0];
    assert TrimAll(Split([c] + text)) == [Trim(pieces[0])] + TrimAll(pieces[1..]);
    assert pieces == [pieces[0]] + pieces[1..];
    TrimAllAppend([pieces[0]], pieces[1..]);
  }

  /** No piece survives exactly when the first piece is blank and no later one survives. */
  lemma NoneKeptFromPieces(pieces: seq<string>)
    requires pieces != []
    ensures Keep(TrimAll(pieces), IsNonEmpty) == [] <==>
      IsBlank(pieces[0]) && Keep(TrimAll(pieces[1..]), IsNonEmpty) == []
  {
    assert pieces == [pieces[0]] + pieces[1..];
    TrimAllAppend([pieces[0]], pieces[1..]);
    KeepAppend([Trim(pieces[0])], TrimAll(pieces[1..]), IsNonEmpty);
    KeepSingleton(Trim(pieces[0]), IsNonEmpty);
  }

  /** A leading comma only adds an empty piece, which is dropped. */
  lemma ParseSkillsLeadingComma(text: string)
    ensures ParseSkills([','] + text) == ParseSkills(text)
  {
    ParseSkillsAppend("", text);
    assert [] + [','] + text == [','] + text;
    assert TrimAll(Split("")) == [""];
    KeepSingleton("", IsNonEmpty);
  }

  /** Text starting with a character other than a comma parses to nothing iff that character is whitespace and the rest parses to nothing. */
  lemma ParseSkillsLeadingChar(c: char, text: string)
    requires c != ','
    ensures ParseSkills([c] + text) == [] <==> IsSpace(c) && ParseSkills(text) == []
  {
    var pieces := Split(text);
    var first := [c] + pieces[0];
    SplitCons(c, text);
    NoneKeptFromPieces(pieces);
    NoneKeptFromPieces(Split([c] + text));
    assert IsBlank(first) <==> IsSpace(c) && IsBlank(pieces[0]) by {
      assert forall i :: 1 <= i < |first| ==> first[i] == pieces[0][i - 1];
    }
  }

  /**
    The input parses to no skills exactly when it holds nothing but
    whitespace and commas; in particular an empty or blank input gives [].
   */
  lemma {:induction false} ParseSkillsEmpty(text: string)
    ensures ParseSkills(text) == [] <==> forall i :: 0 <= i < |text| ==> IsSpace(text[i]) || text[i] == ','
  {
    if text == [] {
      assert TrimAll(Split("")) == [""];
      KeepSingleton("", IsNonEmpty);
    } else {
      var c, rest := text[0], text[1..];
      assert text == [c] + rest;
      ParseSkillsEmpty(rest);
      if c == ',' {
        ParseSkillsLeadingComma(rest);
      } else {
        ParseSkillsLeadingChar(c, rest);
      }
      assert (forall i :: 0 <= i < |text| ==> IsSpace(text[i]) || text[i] == ',')
        <==> (IsSpace(c) || c == ',') && (forall i :: 0 <= i < |rest| ==> IsSpace(rest[i]) || rest[i] == ',') by {
        assert forall i :: 1 <= i < |text| ==> text[i] == rest[i - 1];
      }
    }
  }

  /** One clean skill on its own parses to itself. */
  lemma ParseSingleSkill(skill: string)
    requires IsSkill(skill)
    ensures ParseSkills(skill) == [skill]
  {
    SplitNoComma(skill);
    TrimTrimmed(skill);
    assert TrimAll([skill]) == [skill];
    KeepSingleton(skill, IsNonEmpty);
  }

  lemma JoinCons(skills: seq<string>)
    requires |skills| >= 2
    ensures Join(skills, ", ") == skills[0] + [','] + ([' '] + Join(skills[1..], ", "))
  {
  }

  /** Round trip: a list of clean skills joined with ", " parses back to itself. */
  lemma {:induction false} ParseJoinRoundTrip(skills: seq<string>)
    requires forall skill :: skill in skills ==> IsSkill(skill)
    ensures ParseSkills(Join(skills, ", ")) == skills
  {
    if |skills| == 0 {
      assert Split("") == [""];
      assert TrimAll([""]) == [""];
      KeepSingleton("", IsNonEmpty);
    } else if |skills| == 1 {
      assert skills[0] in skills;
      ParseSingleSkill(skills[0]);
    } else {
      var first, rest := skills[0], skills[1..];
      assert first in skills;
      assert forall skill :: skill in rest ==> skill in skills;
      var tail := Join(rest, ", ");
      JoinCons(skills);
      ParseSkillsAppend(first, [' '] + tail);
      ParseSkillsLeadingSpace(' ', tail);
      ParseSingleSkill(first);
      ParseJoinRoundTrip(rest);
      assert skills == [first] + rest;
    }
  }

  /** `formData.skills ? formData.skills.join(", ") : ""`: the skills input's text. */
  function SkillsText(form: Profile): (text: string)
    ensures !Field(form, "skills").List? ==> text == ""
    ensures Field(form, "skills") == List([]) ==> text == ""
    ensures Field(form, "skills").List? && |Field(form, "skills").items| == 1 ==> text == Field(form, "skills").items[0]
  {
    match Field(form, "skills")
    case List(items) => Join(items, ", ")
    case _ => ""
  }

  /** `handleSkillsChange`: the parsed list replaces the skills field. */
  function SkillsChange(form: Profile, text: string): (r: Profile)
    ensures Field(r, "skills") == List(ParseSkills(text))
    ensures forall other :: other != "skills" ==> Field(r, other) == Field(form, other)
  {
    WithField(form, "skills", List(ParseSkills(text)))
  }

  /**
    Once the page has parsed the skills, the text it shows parses back to the
    same list, so re-rendering the input does not change the skills.
   */
  lemma SkillsInputIsStable(form: Profile, text: string)
    ensures ParseSkills(SkillsText(SkillsChange(form, text))) == ParseSkills(text)
  {
    ParsedSkillsAreClean(text);
    ParseJoinRoundTrip(ParseSkills(text));
  }

  /** The simulated upload's URL: the resume for "resumeUrl", the logo for anything else. */
  function UploadUrl(field: string): (url: string)
    ensures field == "resumeUrl" ==> url == "/uploads/resume.pdf"
    ensures field != "resumeUrl" ==> url == "/uploads/company-logo.png"
  {
    "/uploads/" + (if field == "resumeUrl" then "resume.pdf" else "company-logo.png")
  }

  /** `handleFileUpload`: the field gets the upload URL, through `handleInputChange`. */
  function FileUpload(form: Profile, field: string): (r: Profile)
    ensures Field(r, field) == Text(UploadUrl(field))
    ensures forall other :: other != field ==> Field(r, other) == Field(form, other)
  {
    WithField(form, field, Text(UploadUrl(field)))
  }

  /** Uploading a resume satisfies the dashboard's resume check. */
  lemma ResumeUploadCounts(form: Profile)
    ensures JobSeekerDashboard.HasResume(FileUpload(form, "resumeUrl"))
    ensures JobSeekerDashboard.ProfileCompletion(Some(FileUpload(form, "resumeUrl")))
         >= JobSeekerDashboard.ProfileCompletion(Some(form))
  {
  }

  /** The page's form state, `formData`. */
  class ProfileForm {
    var formData: Profile

    constructor ()
      ensures formData == map[]
    {
      formData := map[];
    }

    /** The initialisation effect. */
    method Initialise(userProfile: Option<Profile>, currentUser: Option<User>)
      modifies this
      ensures formData == InitialForm(userProfile, currentUser, old(formData))
    {
      if userProfile.Some? {
        formData := userProfile.value;
      } else if currentUser.Some? {
        if currentUser.value.role == "jobSeeker" {
          formData := EmptySeekerForm;
        } else if currentUser.value.role == "employer" {
          formData := EmptyEmployerForm;
        }
      }
    }

    /** `handleInputChange`. */
    method InputChange(field: string, value: Value)
      modifies this
      ensures formData == WithField(old(formData), field, value)
    {
      formData := formData[field := value];
    }

    /** `handleSkillsChange`. */
    method HandleSkillsChange(text: string)
      modifies this
      ensures formData == SkillsChange(old(formData), text)
    {
      formData := formData["skills" := List(ParseSkills(text))];
    }

    /** `handleFileUpload`. */
    method HandleFileUpload(field: string)
      modifies this
      ensures formData == FileUpload(old(formData), field)
    {
      InputChange(field, Text(UploadUrl(field)));
    }
  }
}
