/** The package manager's hook: it sees every action before any is taken, and approves exactly the
    lists that carry out the verified plan. */
module AptGuards {

  import opened Wrappers

  /** A package of one architecture. */
  datatype Key = Key(package: string, architecture: string)

  /** What a package archive holds. */
  datatype Deb = Deb(key: Key, version: string, payload: nat)

  datatype Entry = Entry(oldVersion: string, newVersion: string, newDeb: string, archive: Deb)

  type Plan = map<Key, Entry>

  /** A verified plan: each entry's archive is the new version of its own package. */
  predicate Verified(plan: Plan) {
    forall key | key in plan :: plan[key].archive.key == key && plan[key].archive.version == plan[key].newVersion
  }

  /** One line of the hook protocol, split into words; the ninth word takes the rest. */
  datatype Line = Blank | Words(words: seq<string>)

  const REMOVE := "**REMOVE**"
  const CONFIGURE := "**CONFIGURE**"

  datatype Error =
    | NotApplying | WrongProtocol | NoTerminator | Malformed | Unplanned | NotAnUpgrade | OldIdentity | NewIdentity
    | Removal | MissingArchive | UnverifiedArchive | Incomplete

  /** The archives of the host, by path. */
  type Files = map<string, Deb>

  function Quoted(version: string): string {
    if version == "" then "" else (if version[0] == ':' then "%3a" else [version[0]]) + Quoted(version[1..])
  }

  function AptArchiveName(package: string, version: string, architecture: string): string {
    package + "_" + Quoted(version) + "_" + architecture + ".deb"
  }

  /** The two places an approved archive may come from. */
  function Allowed(key: Key, entry: Entry): set<string> {
    {entry.newDeb, "apply-cache/" + AptArchiveName(key.package, entry.newVersion, key.architecture)}
  }

  // ---- what the package manager does with an action -----------------------------------------

  type Packages = map<Key, string>

  /** Remove, configure, or unpack whatever the named archive really holds. */
  function Take(packages: Packages, line: Line, files: Files): Packages {
    if line.Blank? || |line.words| != 9 then packages
    else
      var action := line.words[8];
      if action == REMOVE then packages - {Key(line.words[0], line.words[6])}
      else if action == CONFIGURE || action !in files then packages
      else packages[files[action].key := files[action].version]
  }

  function TakeAll(packages: Packages, lines: seq<Line>, files: Files): Packages {
    if lines == [] then packages else Take(TakeAll(packages, lines[..|lines| - 1], files), Last(lines), files)
  }

  // ---- what is approved ---------------------------------------------------------------------

  function LineKey(line: Line): Key
    requires line.Words? && |line.words| == 9
  {
    Key(line.words[0], line.words[6])
  }

  /** A line that names a planned upgrade by its exact old and new identity. */
  predicate NamesUpgrade(plan: Plan, line: Line) {
    && line.Words? && |line.words| == 9 && LineKey(line) in plan
    && var entry := plan[LineKey(line)];
    && line.words[1] != "-" && line.words[2] != "-" && line.words[4] == "<"
    && line.words[1] == entry.oldVersion && line.words[2] == LineKey(line).architecture
    && line.words[5] == entry.newVersion
  }

  /** Its archive is one of the two allowed places and holds exactly the verified archive. */
  predicate Unpacks(plan: Plan, line: Line, files: Files) {
    && NamesUpgrade(plan, line)
    && var entry := plan[LineKey(line)];
    && line.words[8] != REMOVE && line.words[8] != CONFIGURE
    && line.words[8] in files && line.words[8] in Allowed(LineKey(line), entry) && files[line.words[8]] == entry.archive
  }

  predicate LineOK(plan: Plan, line: Line, files: Files) {
    line.Blank? || (NamesUpgrade(plan, line) && line.words[8] == CONFIGURE) || Unpacks(plan, line, files)
  }

  /** Every line is in order, and every planned package is unpacked by some line. */
  predicate Approves(plan: Plan, actions: seq<Line>, files: Files) {
    && (forall k | 0 <= k < |actions| :: LineOK(plan, actions[k], files))
    && (forall key | key in plan :: exists k | 0 <= k < |actions| :: Unpacks(plan, actions[k], files) && LineKey(actions[k]) == key)
  }

  function ActionsStart(lines: seq<Line>): (start: Option<nat>)
    ensures start.Some? ==> 1 <= start.value <= |lines| && lines[start.value - 1].Blank?
    ensures start.Some? ==> forall k | 0 <= k < start.value - 1 :: !lines[k].Blank?
    ensures start.None? ==> forall k | 0 <= k < |lines| :: !lines[k].Blank?
  {
    if lines == [] then None
    else if lines[0].Blank? then Some(1)
    else
      var rest := ActionsStart(lines[1..]);
      if rest.None? then None else
        assert forall k | 1 <= k < |lines| :: lines[k] == lines[1..][k - 1];
        Some(rest.value + 1)
  }

  /** One action line: skipped, counted, or refused. */
  method CheckLine(plan: Plan, line: Line, files: Files) returns (r: Result<Option<Key>, Error>)
    ensures r.Ok? <==> LineOK(plan, line, files)
    ensures r.Ok? ==> r.value == if Unpacks(plan, line, files) then Some(LineKey(line)) else None
  {
    if line.Blank? {
      return Ok(None);
    }
    if |line.words| != 9 {
      return Err(Malformed);
    }
    var name, oldVersion, oldArch, direction := line.words[0], line.words[1], line.words[2], line.words[4];
    var newVersion, newArch, action := line.words[5], line.words[6], line.words[8];
    var key := Key(name, newArch);
    if key !in plan {
      return Err(Unplanned);
    }
    var entry := plan[key];
    if oldVersion == "-" || oldArch == "-" || direction != "<" {
      return Err(NotAnUpgrade);
    }
    if oldVersion != entry.oldVersion || oldArch != key.architecture {
      return Err(OldIdentity);
    }
    if newVersion != entry.newVersion || newArch != key.architecture {
      return Err(NewIdentity);
    }
    if action == REMOVE {
      return Err(Removal);
    }
    if action == CONFIGURE {
      return Ok(None);
    }
    if action !in files {
      return Err(MissingArchive);
    }
    if action !in Allowed(key, entry) || files[action] != entry.archive {
      return Err(UnverifiedArchive);
    }
    return Ok(Some(key));
  }

  /** The guard: approval is exactly the characterisation above. */
  method GuardApt(applying: bool, plan: Plan, lines: seq<Line>, files: Files) returns (r: Result<nat, Error>)
    ensures r.Ok? <==> applying && lines != [] && lines[0] == Words(["VERSION", "3"]) && ActionsStart(lines).Some?
                       && Approves(plan, lines[ActionsStart(lines).value..], files)
    ensures r.Ok? ==> r.value == |plan|
  {
    hide Approves;
    if !applying {
      return Err(NotApplying);
    }
    if lines == [] || lines[0] != Words(["VERSION", "3"]) {
      return Err(WrongProtocol);
    }
    var start := ActionsStart(lines);
    if start.None? {
      return Err(NoTerminator);
    }
    r := CheckActions(plan, lines[start.value..], files);
  }

  /** The loop over the action lines, filling `seen`. */
  method CheckActions(plan: Plan, actions: seq<Line>, files: Files) returns (r: Result<nat, Error>)
    ensures r.Ok? <==> Approves(plan, actions, files)
    ensures r.Ok? ==> r.value == |plan|
  {
    hide LineOK;
    var seen: set<Key> := {};
    for k := 0 to |actions|
      invariant forall j | 0 <= j < k :: LineOK(plan, actions[j], files)
      invariant forall key | key in seen :: key in plan && exists j | 0 <= j < k :: Unpacks(plan, actions[j], files) && LineKey(actions[j]) == key
      invariant forall j | 0 <= j < k && Unpacks(plan, actions[j], files) :: LineKey(actions[j]) in seen
    {
      var checked := CheckLine(plan, actions[k], files);
      if checked.Err? {
        return Err(checked.error);
      }
      if checked.value.Some? {
        UnpackedIsPlanned(plan, actions[k], files);
        seen := seen + {checked.value.value};
      }
    }
    if seen != plan.Keys {
      var missing :| missing in plan.Keys && missing !in seen;
      return Err(Incomplete);
    }
    return Ok(|seen|);
  }

  lemma UnpackedIsPlanned(plan: Plan, line: Line, files: Files)
    requires Unpacks(plan, line, files)
    ensures LineKey(line) in plan
  {
  }

  // ---- what approval means ------------------------------------------------------------------

  /** The package set before the plan agrees with its old side. */
  predicate AgreesWithOld(packages: Packages, plan: Plan) {
    forall key | key in plan :: key in packages && packages[key] == plan[key].oldVersion
  }

  lemma {:induction false} ApprovedLinesStayInThePlan(plan: Plan, actions: seq<Line>, files: Files, packages: Packages, key: Key)
    requires Verified(plan) && forall k | 0 <= k < |actions| :: LineOK(plan, actions[k], files)
    ensures var after := TakeAll(packages, actions, files);
            if exists k | 0 <= k < |actions| :: Unpacks(plan, actions[k], files) && LineKey(actions[k]) == key
            then key in plan && key in after && after[key] == plan[key].newVersion
            else (key in after <==> key in packages) && (key in after ==> after[key] == packages[key])
  {
    if actions != [] {
      var init, last := actions[..|actions| - 1], Last(actions);
      ApprovedLinesStayInThePlan(plan, init, files, packages, key);
      assert LineOK(plan, actions[|actions| - 1], files);
      assert forall k | 0 <= k < |init| :: init[k] == actions[k];
      if Unpacks(plan, last, files) && LineKey(last) == key {
        assert Unpacks(plan, actions[|actions| - 1], files);
      } else if k :| 0 <= k < |actions| && Unpacks(plan, actions[k], files) && LineKey(actions[k]) == key {
        assert init[k] == actions[k];
      }
    }
  }

  /** The guard implies the plan: carrying out any approved list on a package set that agrees with the
      old side gives the new version of every planned package, and nothing else changes. */
  lemma GuardImpliesPlan(plan: Plan, actions: seq<Line>, files: Files, packages: Packages)
    requires Verified(plan) && Approves(plan, actions, files) && AgreesWithOld(packages, plan)
    ensures TakeAll(packages, actions, files) == map key | key in packages :: if key in plan then plan[key].newVersion else packages[key]
  {
    var after := TakeAll(packages, actions, files);
    forall key
      ensures key in after <==> key in packages
      ensures key in packages ==> after[key] == if key in plan then plan[key].newVersion else packages[key]
    {
      ApprovedLinesStayInThePlan(plan, actions, files, packages, key);
      if k :| 0 <= k < |actions| && Unpacks(plan, actions[k], files) && LineKey(actions[k]) == key {
        assert key in plan;
      }
    }
  }
}
