/**
 * ProjectContext (the project and group directory snapshot the parser consults) and the
 * resolution of the group token of an `<allow>` element.
 */
module ProjectContexts {
  import opened Wrappers
  import opened Strings
  import opened XmlModel

  /** A project of the directory snapshot, as far as the upload reads it. */
  datatype ProjectInfo = ProjectInfo(id: string, shortname: string, shortcode: string)

  /** The shortname of the first project whose shortcode is `code` (never one for None). */
  function ProjectNameOf(projects: seq<ProjectInfo>, code: Option<string>): Option<string>
  {
    if projects == [] then None
    else if Some(projects[0].shortcode) == code then Some(projects[0].shortname)
    else ProjectNameOf(projects[1..], code)
  }

  /** ProjectNameOf finds the first matching project, and finds none only when none matches. */
  lemma {:induction false} ProjectNameOfFirstMatch(projects: seq<ProjectInfo>, code: Option<string>)
    ensures ProjectNameOf(projects, code).None? <==>
      forall k :: 0 <= k < |projects| ==> Some(projects[k].shortcode) != code
    ensures ProjectNameOf(projects, code).Some? ==>
      exists k :: 0 <= k < |projects| && Some(projects[k].shortcode) == code &&
        projects[k].shortname == ProjectNameOf(projects, code).value &&
        forall j :: 0 <= j < k ==> Some(projects[j].shortcode) != code
  {
    if projects != [] && Some(projects[0].shortcode) != code {
      ProjectNameOfFirstMatch(projects[1..], code);
      var name := ProjectNameOf(projects, code);
      if name.Some? {
        var k :| 0 <= k < |projects[1..]| && Some(projects[1..][k].shortcode) == code &&
          projects[1..][k].shortname == name.value &&
          forall j :: 0 <= j < k ==> Some(projects[1..][j].shortcode) != code;
        assert forall j :: 0 <= j < k + 1 ==> Some(projects[j].shortcode) != code by {
          forall j | 0 <= j < k + 1 ensures Some(projects[j].shortcode) != code {
            if j > 0 { assert projects[j] == projects[1..][j - 1]; }
          }
        }
        assert projects[k + 1] == projects[1..][k];
      } else {
        forall k | 0 <= k < |projects| ensures Some(projects[k].shortcode) != code {
          if k > 0 { assert projects[k] == projects[1..][k - 1]; }
        }
      }
    }
  }

  /** The loop over the projects that looks for the shortcode (xml_upload.py:56-59, 71-74). */
  method FindProjectName(projects: seq<ProjectInfo>, code: Option<string>) returns (name: Option<string>)
    ensures name == ProjectNameOf(projects, code)
  {
    name := None;
    var i := 0;
    while i < |projects|
      invariant 0 <= i <= |projects|
      invariant ProjectNameOf(projects, code) == ProjectNameOf(projects[i..], code)
    {
      assert projects[i..][1..] == projects[i + 1..];
      if Some(projects[i].shortcode) == code {
        name := Some(projects[i].shortname);
        return;
      }
      i := i + 1;
    }
  }

  /** The project name after the shortcode setter ran: the match for the stored shortcode
      if there is one, the previous name otherwise. */
  function AfterShortcodeSet(projects: seq<ProjectInfo>, shortcode: Option<string>, projectName: Option<string>): Option<string>
  {
    match ProjectNameOf(projects, shortcode)
    case Some(name) => Some(name)
    case None => projectName
  }

  /** Without a stored shortcode the setter leaves the project name as it was. */
  lemma {:induction false} SetterWithoutShortcode(projects: seq<ProjectInfo>, projectName: Option<string>)
    ensures AfterShortcodeSet(projects, None, projectName) == projectName
  {
    ProjectNameOfFirstMatch(projects, None);
  }

  /** ProjectContext with the directory snapshot taken as input. */
  class ProjectContext {
    const projects: seq<ProjectInfo>
    const groupmap: map<string, string>
    var shortcode: Option<string>
    var projectName: Option<string>

    /** `ProjectContext(con, shortcode)` once the directory has been fetched. */
    constructor (projects: seq<ProjectInfo>, groupmap: map<string, string>, shortcode: Option<string>)
      ensures this.projects == projects && this.groupmap == groupmap && this.shortcode == shortcode
      ensures projectName ==
        if shortcode.Some? && shortcode.value != "" then ProjectNameOf(projects, shortcode) else None
    {
      var name: Option<string> := None;
      if shortcode.Some? && shortcode.value != "" {
        name := FindProjectName(projects, shortcode);
      }
      this.projects := projects;
      this.groupmap := groupmap;
      this.shortcode := shortcode;
      this.projectName := name;
    }

    /** The `shortcode` setter: `val` is never stored, and the projects are matched
        against the shortcode given to the constructor. */
    method SetShortcode(val: string)
      modifies this`projectName
      ensures projectName == AfterShortcodeSet(projects, shortcode, old(projectName))
    {
      var name := FindProjectName(projects, shortcode);
      if name.Some? {
        projectName := name;
      }
    }
  }

  /** The built-in groups a bare or knora-admin group token may name. */
  const SysGroups: seq<string> := ["UnknownUser", "KnownUser", "ProjectMember", "Creator", "ProjectAdmin", "SystemAdmin"]

  /** The group of an `<allow group="...">` (xml_upload.py:394-412). */
  function ResolveGroup(group: string, groupmap: map<string, string>, projectName: Option<string>): Result<string, Error>
  {
    var parts := Split(group, ':');
    if |parts| > 1 then
      if parts[0] != "" then
        if parts[0] == AdminOntology && parts[1] in SysGroups then Ok(group)
        else if group in groupmap then Ok(groupmap[group])
        else Err(UnknownGroup(group))
      else if projectName.None? then Err(NoProjectName)
      else Ok(projectName.value + ":" + parts[1])
    else if parts[0] in SysGroups then Ok(AdminOntology + ":" + group)
    else Err(UnknownGroup(group))
  }

  /** No system group name holds a colon. */
  lemma SysGroupsColonFree(name: string)
    requires name in SysGroups
    ensures ':' !in name
  {
    var k :| 0 <= k < |SysGroups| && SysGroups[k] == name;
    if k == 0 { assert name == "UnknownUser"; }
    else if k == 1 { assert name == "KnownUser"; }
    else if k == 2 { assert name == "ProjectMember"; }
    else if k == 3 { assert name == "Creator"; }
    else if k == 4 { assert name == "ProjectAdmin"; }
    else { assert name == "SystemAdmin"; }
  }

  /** The administrative ontology's name holds no colon. */
  lemma AdminOntologyColonFree()
    ensures ':' !in AdminOntology
  {
  }

  /** `knora-admin:<system group>` is kept as it is. */
  lemma ResolveAdminGroup(name: string, groupmap: map<string, string>, projectName: Option<string>)
    requires name in SysGroups
    ensures ResolveGroup(AdminOntology + ":" + name, groupmap, projectName) == Ok(AdminOntology + ":" + name)
  {
    assert Split(AdminOntology + ":" + name, ':') == [AdminOntology, name] by {
      SysGroupsColonFree(name);
      SplitFree(name, ':');
      AdminOntologyColonFree();
      SplitAtFirst(AdminOntology, name, ':');
      assert AdminOntology + ":" + name == AdminOntology + [':'] + name;
    }
  }

  /** Any other `ns:name` is looked up in the group map and raises when it is absent. */
  lemma ResolveNamespacedGroup(ns: string, name: string, groupmap: map<string, string>, projectName: Option<string>)
    requires ns != "" && ':' !in ns && ':' !in name
    requires !(ns == AdminOntology && name in SysGroups)
    ensures ResolveGroup(ns + ":" + name, groupmap, projectName) ==
      if ns + ":" + name in groupmap then Ok(groupmap[ns + ":" + name]) else Err(UnknownGroup(ns + ":" + name))
  {
    assert Split(ns + ":" + name, ':') == [ns, name] by {
      SplitFree(name, ':');
      SplitAtFirst(ns, name, ':');
      assert ns + ":" + name == ns + [':'] + name;
    }
  }

  /** `:name` names a group of the current project, and raises when no project name is known. */
  lemma ResolveProjectGroup(name: string, groupmap: map<string, string>, projectName: Option<string>)
    requires ':' !in name
    ensures ResolveGroup(":" + name, groupmap, projectName) ==
      if projectName.None? then Err(NoProjectName) else Ok(projectName.value + ":" + name)
  {
    assert Split(":" + name, ':') == ["", name] by {
      SplitFree(name, ':');
      SplitAtFirst("", name, ':');
      assert ":" + name == "" + [':'] + name;
    }
  }

  /** A bare token must be a system group, which then goes to knora-admin. */
  lemma ResolveBareGroup(group: string, groupmap: map<string, string>, projectName: Option<string>)
    requires ':' !in group
    ensures ResolveGroup(group, groupmap, projectName) ==
      if group in SysGroups then Ok(AdminOntology + ":" + group) else Err(UnknownGroup(group))
  {
    SplitFree(group, ':');
  }

  /**
   * The upload builds its context without a shortcode (xml_upload.py:558) and then sets the
   * shortcode from the document root (xml_upload.py:574); the project name stays unknown,
   * so every `:name` group token raises.
   */
  method UploadContextRejectsOwnGroups(projects: seq<ProjectInfo>, groupmap: map<string, string>, rootShortcode: string, name: string)
    returns (r: Result<string, Error>)
    requires ':' !in name
    ensures r == Err(NoProjectName)
  {
    var ctx := new ProjectContext(projects, groupmap, None);
    ctx.SetShortcode(rootShortcode);
    SetterWithoutShortcode(projects, None);
    ResolveProjectGroup(name, ctx.groupmap, ctx.projectName);
    r := ResolveGroup(":" + name, ctx.groupmap, ctx.projectName);
  }
}
