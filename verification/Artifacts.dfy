/** Content-addressed artifacts: the object files and rows refine an immutable map, for every digest function. */
module Artifacts {
  import opened Prelude
  import opened Text

  type Bytes = seq<int>

  datatype ArtifactError = LabelRequired | EmptyContent | IntegrityConflict | Immutable | NotFound | ScopeMismatch | ObjectMissing | CheckFailed

  datatype Scope = Scope(tenant: string, project: string, job: string, kind: string, mime: string)

  /** A row of `artifact_outputs`. */
  datatype Row = Row(scope: Scope, hash: string, size: nat, created: int)

  type Name = (string, string)

  /** The object directory, keyed by digest, and the metadata table. */
  datatype Files = Files(objects: map<string, Bytes>, rows: map<Name, Row>)

  const NOTHING := Files(map[], map[])

  predicate Labelled(name: Name, scope: Scope) {
    && !Blank(name.0) && !Blank(name.1) && !Blank(scope.tenant) && !Blank(scope.project) && !Blank(scope.job)
    && !Blank(scope.kind) && !Blank(scope.mime)
  }

  /** `put`: the object is written before the row is looked at, and the record handed back is built from the arguments. */
  function Put(digest: Bytes -> string, f: Files, name: Name, scope: Scope, content: Bytes, now: int): (Files, Result<Row, ArtifactError>) {
    if !Labelled(name, scope) then (f, Err(LabelRequired))
    else if content == [] then (f, Err(EmptyContent))
    else
      var hash := digest(content);
      if hash in f.objects && f.objects[hash] != content then (f, Err(IntegrityConflict))
      else
        var written := f.(objects := f.objects[hash := content]);
        var row := Row(scope, hash, |content|, now);
        if name !in f.rows then (written.(rows := f.rows[name := row]), Ok(row))
        else (written, if f.rows[name].hash != hash then Err(Immutable) else Ok(row))
  }

  /** `read`. */
  function Read(digest: Bytes -> string, f: Files, name: Name, tenant: string, project: string): Result<Bytes, ArtifactError> {
    if name !in f.rows then Err(NotFound)
    else
      var row := f.rows[name];
      if row.scope.tenant != tenant || row.scope.project != project then Err(ScopeMismatch)
      else if row.hash !in f.objects then Err(ObjectMissing)
      else if digest(f.objects[row.hash]) != row.hash || |f.objects[row.hash]| != row.size then Err(CheckFailed)
      else Ok(f.objects[row.hash])
  }

  // ----- the immutable map behind it -----

  datatype Published = Published(scope: Scope, content: Bytes)

  predicate Sound(digest: Bytes -> string, f: Files) {
    && (forall h :: h in f.objects ==> digest(f.objects[h]) == h)
    && (forall n :: n in f.rows ==> f.rows[n].hash in f.objects && |f.objects[f.rows[n].hash]| == f.rows[n].size)
  }

  /** What the store stands for. */
  function View(f: Files): map<Name, Published> {
    map n | n in f.rows && f.rows[n].hash in f.objects :: Published(f.rows[n].scope, f.objects[f.rows[n].hash])
  }

  /** One put is one step of the immutable map: a new name is added, anything else leaves the map alone. */
  lemma PutRefines(digest: Bytes -> string, f: Files, name: Name, scope: Scope, content: Bytes, now: int)
    requires Sound(digest, f)
    ensures var (f', r) := Put(digest, f, name, scope, content, now);
            && Sound(digest, f')
            && View(f') == (if r.Ok? && name !in View(f) then View(f)[name := Published(scope, content)] else View(f))
            && (r.Ok? ==> name in View(f') && View(f')[name].content == content)
            && (name in View(f) && View(f)[name].content != content ==> r.Err?)
  {
    hide Labelled;
    PutSound(digest, f, name, scope, content, now);
    var (f', r) := Put(digest, f, name, scope, content, now);
    if f'.rows == f.rows {
      SameView(digest, f, f');
    } else {
      assert r.Ok? && f'.rows == f.rows[name := f'.rows[name]];
      assert View(f') == View(f)[name := Published(scope, content)];
    }
  }

  /** Another content under the same digest is already stored. */
  predicate Clashes(digest: Bytes -> string, f: Files, content: Bytes) {
    exists h :: h in f.objects && h == digest(content) && f.objects[h] != content
  }

  /**
   * A put succeeds exactly if its seven labels say something, there is content, no other content has its digest, and the name is
   * new or was put with the same digest; a new name is stored with the scope, digest and size of this call.
   */
  lemma PutsExactly(digest: Bytes -> string, f: Files, name: Name, scope: Scope, content: Bytes, now: int)
    ensures var (f', r) := Put(digest, f, name, scope, content, now);
            && (r.Ok? <==>
                  && (forall text :: text in [name.0, name.1, scope.tenant, scope.project, scope.job, scope.kind, scope.mime] ==> Strip(text) != "")
                  && |content| > 0 && !Clashes(digest, f, content)
                  && (name in f.rows ==> f.rows[name].hash == digest(content)))
            && (r.Ok? ==>
                  && r.value == Row(scope, digest(content), |content|, now)
                  && f'.objects == f.objects[digest(content) := content]
                  && f'.rows == if name in f.rows then f.rows else f.rows[name := r.value])
            && (r.Err? ==> f'.rows == f.rows && forall h :: h in f.objects ==> h in f'.objects && f'.objects[h] == f.objects[h])
  {
    hide Strip;
  }

  lemma PutSound(digest: Bytes -> string, f: Files, name: Name, scope: Scope, content: Bytes, now: int)
    requires Sound(digest, f)
    ensures var f' := Put(digest, f, name, scope, content, now).0;
            Sound(digest, f') && forall h :: h in f.objects ==> h in f'.objects && f'.objects[h] == f.objects[h]
  {
    hide Labelled;
  }

  lemma SameView(digest: Bytes -> string, f: Files, f': Files)
    requires Sound(digest, f) && f'.rows == f.rows
    requires forall h :: h in f.objects ==> h in f'.objects && f'.objects[h] == f.objects[h]
    ensures View(f') == View(f)
  {
  }

  /** A read finds exactly what the map holds in that scope; the file checks never fail. */
  lemma ReadRefines(digest: Bytes -> string, f: Files, name: Name, tenant: string, project: string)
    requires Sound(digest, f)
    ensures Read(digest, f, name, tenant, project) ==
            (if name !in View(f) then Err(NotFound)
             else if View(f)[name].scope.tenant != tenant || View(f)[name].scope.project != project then Err(ScopeMismatch)
             else Ok(View(f)[name].content))
  {
  }

  datatype Op = DoPut(name: Name, scope: Scope, content: Bytes, now: int)

  function Perform(digest: Bytes -> string, f: Files, ops: seq<Op>): Files {
    if ops == [] then f
    else
      var op := ops[|ops| - 1];
      Put(digest, Perform(digest, f, ops[..|ops| - 1]), op.name, op.scope, op.content, op.now).0
  }

  lemma {:induction false} RunRefines(digest: Bytes -> string, f: Files, ops: seq<Op>)
    requires Sound(digest, f)
    ensures var f' := Perform(digest, f, ops);
            Sound(digest, f') && forall n :: n in View(f) ==> n in View(f') && View(f')[n] == View(f)[n]
  {
    hide Put, Sound, View;
    if ops != [] {
      var before, op := ops[..|ops| - 1], ops[|ops| - 1];
      RunRefines(digest, f, before);
      PutRefines(digest, Perform(digest, f, before), op.name, op.scope, op.content, op.now);
    }
  }

  /** The first successful put decides for ever: a read in its scope returns its bytes, whatever is put afterwards. */
  lemma {:induction false} FirstPutWins(digest: Bytes -> string, before: seq<Op>, name: Name, scope: Scope, content: Bytes, now: int, more: seq<Op>,
                     tenant: string, project: string)
    requires var f := Perform(digest, NOTHING, before);
             name !in f.rows && Put(digest, f, name, scope, content, now).1.Ok?
    ensures var f' := Perform(digest, Put(digest, Perform(digest, NOTHING, before), name, scope, content, now).0, more);
            Read(digest, f', name, tenant, project) ==
            if tenant == scope.tenant && project == scope.project then Ok(content) else Err(ScopeMismatch)
  {
    hide Labelled;
    RunRefines(digest, NOTHING, before);
    var f := Perform(digest, NOTHING, before);
    PutRefines(digest, f, name, scope, content, now);
    assert name !in View(f);
    var put := Put(digest, f, name, scope, content, now).0;
    RunRefines(digest, put, more);
    ReadRefines(digest, Perform(digest, put, more), name, tenant, project);
    hide Perform, Put, Sound, View, Read;
  }

  /** A repeated put succeeds whatever scope it names, so the record it returns is the stored one only if the scope is. */
  lemma RepeatedPutEchoes(digest: Bytes -> string, f: Files, name: Name, scope: Scope, now: int)
    requires Sound(digest, f) && name in f.rows && Labelled(name, scope) && f.rows[name].size > 0
    ensures var (f', r) := Put(digest, f, name, scope, View(f)[name].content, now);
            && f' == f && r.Ok? && r.value.hash == f.rows[name].hash && r.value.size == f.rows[name].size
            && (r.value.scope == f.rows[name].scope <==> scope == f.rows[name].scope)
  {
    hide Labelled;
    var content := View(f)[name].content;
    assert f.objects[digest(content) := content] == f.objects;
  }

  // ----- the store as an object -----

  class ArtifactStore {
    const digest: Bytes -> string
    var objects: map<string, Bytes>
    var rows: map<Name, Row>

    function State(): Files
      reads this
    {
      Files(objects, rows)
    }

    constructor (digest: Bytes -> string)
      ensures this.digest == digest && State() == NOTHING
    {
      this.digest := digest;
      objects, rows := map[], map[];
    }

    method PutArtifact(name: Name, scope: Scope, content: Bytes, now: int) returns (result: Result<Row, ArtifactError>)
      modifies this
      ensures (State(), result) == Put(digest, old(State()), name, scope, content, now)
    {
      hide Labelled;
      if !Labelled(name, scope) {
        return Err(LabelRequired);
      }
      if content == [] {
        return Err(EmptyContent);
      }
      var hash := digest(content);
      if hash in objects {
        if objects[hash] != content {
          return Err(IntegrityConflict);
        }
        assert objects[hash := content] == objects;
      } else {
        objects := objects[hash := content];
      }
      var row := Row(scope, hash, |content|, now);
      if name in rows {
        if rows[name].hash != hash {
          return Err(Immutable);
        }
      } else {
        rows := rows[name := row];
      }
      return Ok(row);
    }

    method ReadArtifact(name: Name, tenant: string, project: string) returns (result: Result<Bytes, ArtifactError>)
      ensures result == Read(digest, State(), name, tenant, project)
    {
      if name !in rows {
        return Err(NotFound);
      }
      var row := rows[name];
      if row.scope.tenant != tenant || row.scope.project != project {
        return Err(ScopeMismatch);
      }
      if row.hash !in objects {
        return Err(ObjectMissing);
      }
      var content := objects[row.hash];
      if digest(content) != row.hash || |content| != row.size {
        return Err(CheckFailed);
      }
      return Ok(content);
    }
  }
}
