/** The last-build-spec annotation: a snapshot of the build inputs, written and read as JSON
    with the struct tags of the API types. */
module LastSpec {
  import opened ImageBuilds
  import opened Json

  // ---- json.Marshal of buildInputs -----------------------------------------

  /** A member that its tag omits when empty. */
  function TextUnlessEmpty(key: string, s: string, rest: Members): Members {
    if s == "" then rest else Member(key, String(s), rest)
  }

  /** An optional reference; the referenced name is itself omitted when empty. */
  function SecretUnlessNil(key: string, secret: Option<string>, rest: Members): Members {
    match secret
    case None => rest
    case Some(name) => Member(key, Object(TextUnlessEmpty("name", name, NoMembers)), rest)
  }

  function GitValue(g: GitSource): Value {
    Object(Member("url", String(g.url),
           TextUnlessEmpty("revision", g.revision,
           SecretUnlessNil("cloneSecret", g.cloneSecret, NoMembers))))
  }

  function SourceValue(s: Source): Value {
    Object(Member("type", String(s.kind),
           Member("git", GitValue(s.git),
           TextUnlessEmpty("contextDir", s.contextDir, NoMembers))))
  }

  function OutputValue(o: Output): Value {
    Object(Member("image", String(o.image),
           SecretUnlessNil("pushSecret", o.pushSecret, NoMembers)))
  }

  function InputsValue(i: BuildInputs): Value {
    Object(Member("source", SourceValue(i.source),
           Member("buildFile", Object(Member("mode", String(i.buildFile), NoMembers)),
           Member("output", OutputValue(i.output), NoMembers))))
  }

  function Marshal(i: BuildInputs): string {
    Print(InputsValue(i))
  }

  // ---- json.Unmarshal into buildInputs -------------------------------------

  /** Case folding as far as it can matter for the ASCII names of struct fields. */
  function Fold(c: char): char {
    if 'a' <= c <= 'z' then (c as int - 32) as char
    else if c as int == 0x17F then 'S'
    else if c as int == 0x212A then 'K'
    else c
  }

  predicate Names(key: string, field: string) {
    |key| == |field| && forall i :: 0 <= i < |key| ==> Fold(key[i]) == Fold(field[i])
  }

  /** A null leaves a field as it is; any other type than the field's is an error. */
  function ReadText(v: Value, current: string): Option<string> {
    match v
    case String(s) => Some(s)
    case Null => Some(current)
    case _ => None
  }

  /** A struct: its members in order, later ones over earlier ones; unknown members are ignored. */
  function ReadSecretMembers(ms: Members, current: string): Option<string> {
    match ms
    case NoMembers => Some(current)
    case Member(k, v, rest) =>
      if !Names(k, "name") then ReadSecretMembers(rest, current)
      else match ReadText(v, current)
           case None => None
           case Some(name) => ReadSecretMembers(rest, name)
  }

  /** A pointer: null clears it, an object is read into it, into a new struct if it was nil. */
  function ReadSecret(v: Value, current: Option<string>): Option<Option<string>> {
    match v
    case Null => Some(None)
    case Object(ms) =>
      (match ReadSecretMembers(ms, if current.Some? then current.value else "")
       case None => None
       case Some(name) => Some(Some(name)))
    case _ => None
  }

  function ReadGitMember(k: string, v: Value, g: GitSource): Option<GitSource> {
    if Names(k, "url") then
      match ReadText(v, g.url) case None => None case Some(s) => Some(g.(url := s))
    else if Names(k, "revision") then
      match ReadText(v, g.revision) case None => None case Some(s) => Some(g.(revision := s))
    else if Names(k, "cloneSecret") then
      match ReadSecret(v, g.cloneSecret) case None => None case Some(r) => Some(g.(cloneSecret := r))
    else Some(g)
  }

  function ReadGitMembers(ms: Members, g: GitSource): Option<GitSource> {
    match ms
    case NoMembers => Some(g)
    case Member(k, v, rest) =>
      match ReadGitMember(k, v, g) case None => None case Some(g') => ReadGitMembers(rest, g')
  }

  function ReadGit(v: Value, g: GitSource): Option<GitSource> {
    match v
    case Null => Some(g)
    case Object(ms) => ReadGitMembers(ms, g)
    case _ => None
  }

  function ReadSourceMember(k: string, v: Value, s: Source): Option<Source> {
    if Names(k, "type") then
      match ReadText(v, s.kind) case None => None case Some(t) => Some(s.(kind := t))
    else if Names(k, "git") then
      match ReadGit(v, s.git) case None => None case Some(g) => Some(s.(git := g))
    else if Names(k, "contextDir") then
      match ReadText(v, s.contextDir) case None => None case Some(t) => Some(s.(contextDir := t))
    else Some(s)
  }

  function ReadSourceMembers(ms: Members, s: Source): Option<Source> {
    match ms
    case NoMembers => Some(s)
    case Member(k, v, rest) =>
      match ReadSourceMember(k, v, s) case None => None case Some(s') => ReadSourceMembers(rest, s')
  }

  function ReadSource(v: Value, s: Source): Option<Source> {
    match v
    case Null => Some(s)
    case Object(ms) => ReadSourceMembers(ms, s)
    case _ => None
  }

  function ReadBuildFileMembers(ms: Members, mode: string): Option<string> {
    match ms
    case NoMembers => Some(mode)
    case Member(k, v, rest) =>
      if !Names(k, "mode") then ReadBuildFileMembers(rest, mode)
      else match ReadText(v, mode) case None => None case Some(m) => ReadBuildFileMembers(rest, m)
  }

  function ReadBuildFile(v: Value, mode: string): Option<string> {
    match v
    case Null => Some(mode)
    case Object(ms) => ReadBuildFileMembers(ms, mode)
    case _ => None
  }

  function ReadOutputMember(k: string, v: Value, o: Output): Option<Output> {
    if Names(k, "image") then
      match ReadText(v, o.image) case None => None case Some(s) => Some(o.(image := s))
    else if Names(k, "pushSecret") then
      match ReadSecret(v, o.pushSecret) case None => None case Some(r) => Some(o.(pushSecret := r))
    else Some(o)
  }

  function ReadOutputMembers(ms: Members, o: Output): Option<Output> {
    match ms
    case NoMembers => Some(o)
    case Member(k, v, rest) =>
      match ReadOutputMember(k, v, o) case None => None case Some(o') => ReadOutputMembers(rest, o')
  }

  function ReadOutput(v: Value, o: Output): Option<Output> {
    match v
    case Null => Some(o)
    case Object(ms) => ReadOutputMembers(ms, o)
    case _ => None
  }

  function ReadInputsMember(k: string, v: Value, i: BuildInputs): Option<BuildInputs> {
    if Names(k, "source") then
      match ReadSource(v, i.source) case None => None case Some(s) => Some(i.(source := s))
    else if Names(k, "buildFile") then
      match ReadBuildFile(v, i.buildFile) case None => None case Some(m) => Some(i.(buildFile := m))
    else if Names(k, "output") then
      match ReadOutput(v, i.output) case None => None case Some(o) => Some(i.(output := o))
    else Some(i)
  }

  function ReadInputsMembers(ms: Members, i: BuildInputs): Option<BuildInputs> {
    match ms
    case NoMembers => Some(i)
    case Member(k, v, rest) =>
      match ReadInputsMember(k, v, i) case None => None case Some(i') => ReadInputsMembers(rest, i')
  }

  const NO_GIT := GitSource("", "", None)
  const NO_SOURCE := Source("", NO_GIT, "")
  const NO_OUTPUT := Output("", None)
  const NO_INPUTS := BuildInputs(NO_SOURCE, "", NO_OUTPUT)

  /** None where json.Unmarshal returns an error. */
  function Unmarshal(text: string): Option<BuildInputs> {
    match Parse(text)
    case Fail => None
    case Done(Null, _) => Some(NO_INPUTS)
    case Done(Object(ms), _) => ReadInputsMembers(ms, NO_INPUTS)
    case Done(_, _) => None
  }

  // ---- the round trip ------------------------------------------------------

  lemma SecretReads(secret: Option<string>)
    ensures secret.Some? ==> ReadSecret(Object(TextUnlessEmpty("name", secret.value, NoMembers)), None) == Some(secret)
  {
    if secret.Some? && secret.value != "" {
      assert ReadSecretMembers(NoMembers, secret.value) == Some(secret.value);
    }
  }

  lemma GitReads(g: GitSource)
    ensures ReadGit(GitValue(g), NO_GIT) == Some(g)
  {
    hide ReadSecret;
    SecretReads(g.cloneSecret);
    var c := SecretUnlessNil("cloneSecret", g.cloneSecret, NoMembers);
    assert !Names("cloneSecret", "url") && !Names("cloneSecret", "revision");
    assert !Names("revision", "url");
    assert ReadGitMembers(c, GitSource(g.url, g.revision, None)) == Some(g);
    assert ReadGitMembers(TextUnlessEmpty("revision", g.revision, c), GitSource(g.url, "", None)) == Some(g);
  }

  lemma SourceReads(s: Source)
    ensures ReadSource(SourceValue(s), NO_SOURCE) == Some(s)
  {
    hide ReadGit, GitValue;
    GitReads(s.git);
    assert !Names("git", "type") && !Names("contextDir", "type") && !Names("contextDir", "git");
    var c := TextUnlessEmpty("contextDir", s.contextDir, NoMembers);
    assert ReadSourceMembers(c, Source(s.kind, s.git, "")) == Some(s);
    assert ReadSourceMembers(Member("git", GitValue(s.git), c), Source(s.kind, NO_GIT, "")) == Some(s);
  }

  lemma OutputReads(o: Output)
    ensures ReadOutput(OutputValue(o), NO_OUTPUT) == Some(o)
  {
    hide ReadSecret;
    SecretReads(o.pushSecret);
    assert !Names("pushSecret", "image");
    assert ReadOutputMembers(SecretUnlessNil("pushSecret", o.pushSecret, NoMembers), Output(o.image, None)) == Some(o);
  }

  lemma InputsRead(i: BuildInputs)
    ensures ReadInputsMembers(InputsValue(i).members, NO_INPUTS) == Some(i)
  {
    hide ReadSource, SourceValue, ReadOutput, OutputValue;
    SourceReads(i.source);
    OutputReads(i.output);
    assert !Names("buildFile", "source") && !Names("output", "buildFile");
    assert !Names("output", "source") by {
      assert Fold("output"[1]) != Fold("source"[1]) || Fold("output"[0]) != Fold("source"[0]);
    }
    var o := Member("output", OutputValue(i.output), NoMembers);
    var b := Member("buildFile", Object(Member("mode", String(i.buildFile), NoMembers)), o);
    assert ReadBuildFileMembers(NoMembers, i.buildFile) == Some(i.buildFile);
    assert ReadBuildFile(Object(Member("mode", String(i.buildFile), NoMembers)), "") == Some(i.buildFile);
    assert ReadInputsMembers(o, BuildInputs(i.source, i.buildFile, NO_OUTPUT)) == Some(i);
    assert ReadInputsMembers(b, BuildInputs(i.source, "", NO_OUTPUT)) == Some(i);
  }

  /** What is recorded reads back as exactly the recorded inputs, for any strings and any
      combination of optional fields. */
  lemma MarshalRoundTrip(i: BuildInputs)
    ensures Unmarshal(Marshal(i)) == Some(i)
  {
    hide ReadInputsMembers, Parse, Print;
    PrintedTextParses(InputsValue(i));
    InputsRead(i);
  }
}
