/**
 The agent's identity file: written to a temporary file, synced, and published by a rename.  Any
 file-system operation may fail, leave part of its data behind, or be the one during which the
 process dies; a power failure may then damage everything that was not synced.
 */
module IdentityStore {
  import opened Basics
  import opened Base64Url

  type Content = seq<Byte>

  datatype AgentIdentity = AgentIdentity(schemaVersion: nat, machine: string, agent: string, secret: string)

  // serde_json: rendering an identity and reading the file back gives that identity.
  datatype Codec = Codec(render: AgentIdentity -> Content, parse: Content -> Option<AgentIdentity>)

  const NEWLINE: Content := [10]

  ghost predicate RoundTrips(codec: Codec) {
    forall i :: codec.parse(codec.render(i) + NEWLINE) == Some(i)
  }

  // identity.json and .identity-<uuid>.tmp
  datatype Name = IdentityFile | Temporary(id: nat)

  datatype File = File(content: Content, synced: bool)

  type Files = map<Name, File>

  datatype Fate = Succeeds | Fails(wrote: nat) | Dies(wrote: nat, applied: bool)

  datatype IdentityError = Io | Json | AlreadyExists | UnsupportedSchemaVersion(version: nat)

  function LoadFrom(codec: Codec, files: Files): Result<Option<AgentIdentity>, IdentityError> {
    if IdentityFile !in files then Ok(None)
    else
      var identity := codec.parse(files[IdentityFile].content);
      if identity.None? then Err(Json)
      else if identity.value.schemaVersion != 1 then Err(UnsupportedSchemaVersion(identity.value.schemaVersion))
      else Ok(identity)
  }

  // What a power failure may leave: synced content stays with its name, everything else is
  // arbitrary; the published name may be lost but not appear.
  ghost predicate Survives(before: Files, after: Files) {
    && (IdentityFile in after ==> IdentityFile in before)
    && (forall n :: n in after ==> after[n].synced)
    && forall n :: n in before && n in after && before[n].synced ==> after[n].content == before[n].content
  }

  // Whatever was published can be lost, and what was synced can also be kept: nothing that happens
  // before the power failure decides which.
  lemma NoPublishedFileIsSafe(before: Files)
    requires IdentityFile in before
    ensures exists after :: Survives(before, after) && IdentityFile !in after
    ensures exists after :: Survives(before, after) && IdentityFile in after
  {
    assert Survives(before, map[]);
    assert Survives(before, map[IdentityFile := before[IdentityFile].(synced := true)]);
  }

  function Complete(codec: Codec, identity: AgentIdentity): File {
    File(codec.render(identity) + NEWLINE, true)
  }

  // The published entry, if any.
  function Published(files: Files): Option<File> {
    if IdentityFile in files then Some(files[IdentityFile]) else None
  }

  function Prefix(data: Content, n: nat): Content {
    if n <= |data| then data[..n] else data
  }

  ghost predicate OnlyChanges(before: Files, after: Files, name: Name) {
    forall n :: n != name ==> (n in before <==> n in after) && (n in before ==> before[n] == after[n])
  }

  // The operations from the n-th up to the m-th.
  ghost predicate Succeed(fates: nat -> Fate, n: nat, m: nat) {
    forall k :: n <= k < m ==> fates(k).Succeeds?
  }

  // The j-th operation is the first from the n-th on that does not succeed; it fails, and the next
  // one succeeds.
  ghost predicate FailsOnceAt(fates: nat -> Fate, n: nat, j: nat) {
    Succeed(fates, n, j) && fates(j).Fails? && fates(j + 1).Succeeds?
  }

  ghost predicate SucceedFrom(fates: nat -> Fate, n: nat) {
    forall k :: n <= k ==> fates(k).Succeeds?
  }

  // The state directory as one process sees it.  `fates(k)` is what becomes of its k-th operation;
  // once the process has died, nothing it does has an effect.
  class Directory {
    var files: Files
    var dead: bool
    var ops: nat
    var fates: nat -> Fate

    constructor (files: Files, fates: nat -> Fate)
      ensures this.files == files && this.fates == fates && !dead && ops == 0
    {
      this.files, this.fates, dead, ops := files, fates, false, 0;
    }

    // Whatever survives, survives without a process to see it.
    method PowerFailure(survived: Files)
      requires Survives(files, survived)
      modifies this`files, this`dead
      ensures files == survived && dead
    {
      files, dead := survived, true;
    }

    // A new process on the same disk.
    method Restart(fates: nat -> Fate)
      modifies this
      ensures files == old(files) && this.fates == fates && !dead && ops == 0
    {
      this.fates, dead, ops := fates, false, 0;
    }

    method NextFate() returns (fate: Fate)
      modifies this`dead, this`ops
      ensures fate == if old(dead) then Dies(0, false) else fates(old(ops))
      ensures dead == (old(dead) || fate.Dies?)
      ensures ops == old(ops) + if old(dead) then 0 else 1
    {
      if dead { return Dies(0, false); }
      fate := fates(ops);
      ops := ops + 1;
      dead := fate.Dies?;
    }

    // Path::exists also answers false when it cannot tell.
    method Exists(name: Name) returns (found: bool)
      modifies this`dead, this`ops
      ensures if old(dead) then dead && !found else
                dead == fates(old(ops)).Dies? && ops == old(ops) + 1 && found == (fates(old(ops)).Succeeds? && name in files)
    {
      var fate := NextFate();
      found := fate.Succeeds? && name in files;
    }

    method CreateDirectory() returns (ok: bool)
      modifies this`dead, this`ops
      ensures dead == (old(dead) || fates(old(ops)).Dies?) && ops == old(ops) + if old(dead) then 0 else 1
      ensures ok <==> !old(dead) && fates(old(ops)).Succeeds?
    {
      var fate := NextFate();
      ok := fate.Succeeds?;
    }

    method CreateNew(name: Name) returns (ok: bool)
      requires !dead
      modifies this`files, this`dead, this`ops
      ensures dead == (old(dead) || fates(old(ops)).Dies?) && ops == old(ops) + if old(dead) then 0 else 1
      ensures ok <==> fates(old(ops)).Succeeds? && name !in old(files)
      ensures OnlyChanges(old(files), files, name)
      ensures ok ==> files == old(files)[name := File([], false)]
      ensures !ok && !dead ==> files == old(files)
    {
      var fate := NextFate();
      ok := fate.Succeeds? && name !in files;
      if ok || (fate.Dies? && fate.applied && name !in files) {
        files := files[name := File([], false)];
      }
    }

    // Appends; a failing or dying write leaves a prefix of its data behind.
    method Write(name: Name, data: Content) returns (ok: bool)
      requires name in files && !dead
      modifies this`files, this`dead, this`ops
      ensures dead == (old(dead) || fates(old(ops)).Dies?) && ops == old(ops) + if old(dead) then 0 else 1
      ensures ok <==> fates(old(ops)).Succeeds?
      ensures OnlyChanges(old(files), files, name) && name in files
      ensures ok ==> files[name].content == old(files[name].content) + data
    {
      var fate := NextFate();
      ok := fate.Succeeds?;
      var written := if ok then data else Prefix(data, fate.wrote);
      files := files[name := File(files[name].content + written, false)];
    }

    method Sync(name: Name) returns (ok: bool)
      requires name in files && !dead
      modifies this`files, this`dead, this`ops
      ensures dead == (old(dead) || fates(old(ops)).Dies?) && ops == old(ops) + if old(dead) then 0 else 1
      ensures ok <==> fates(old(ops)).Succeeds?
      ensures OnlyChanges(old(files), files, name) && name in files
      ensures ok ==> files[name] == File(old(files[name].content), true)
    {
      var fate := NextFate();
      ok := fate.Succeeds?;
      if ok || (fate.Dies? && fate.applied) {
        files := files[name := files[name].(synced := true)];
      }
    }

    // Replaces the target, as rename(2) does.
    method Rename(from: Name, to: Name) returns (ok: bool)
      requires from in files && from != to && !dead
      modifies this`files, this`dead, this`ops
      ensures dead == (old(dead) || fates(old(ops)).Dies?) && ops == old(ops) + if old(dead) then 0 else 1
      ensures ok <==> fates(old(ops)).Succeeds?
      ensures files == old(files) || files == (old(files) - {from})[to := old(files[from])]
      ensures ok ==> files == (old(files) - {from})[to := old(files[from])]
      ensures !ok && !dead ==> files == old(files)
    {
      var fate := NextFate();
      ok := fate.Succeeds?;
      if ok || (fate.Dies? && fate.applied) {
        files := (files - {from})[to := files[from]];
      }
    }

    // Its result is ignored by every caller.
    method Remove(name: Name)
      modifies this`files, this`dead, this`ops
      ensures dead == (old(dead) || fates(old(ops)).Dies?) && ops == old(ops) + if old(dead) then 0 else 1
      ensures files == old(files) || files == old(files) - {name}
      ensures old(dead) ==> files == old(files)
      ensures !old(dead) && fates(old(ops)).Succeeds? ==> files == old(files) - {name}
    {
      var fate := NextFate();
      if fate.Succeeds? || (fate.Dies? && fate.applied) {
        files := files - {name};
      }
    }

    // Opens the file and reads it.  An error while reading reaches the caller as one of parsing.
    method Load(codec: Codec) returns (r: Result<Option<AgentIdentity>, IdentityError>)
      modifies this`dead, this`ops
      ensures r == if old(dead) || !fates(old(ops)).Succeeds? then Err(Io)
                   else if IdentityFile in files && !fates(old(ops) + 1).Succeeds? then Err(Json)
                   else LoadFrom(codec, files)
      // The same, from the file's content.
      ensures r == Err(Io) <==> old(dead) || !fates(old(ops)).Succeeds?
      ensures r == Ok(None) <==> !old(dead) && fates(old(ops)).Succeeds? && IdentityFile !in files
      ensures IdentityFile in files && !old(dead) && fates(old(ops)).Succeeds? ==>
                var parsed := if fates(old(ops) + 1).Succeeds? then codec.parse(files[IdentityFile].content) else None;
                && (parsed.None? ==> r == Err(Json))
                && (parsed.Some? && parsed.value.schemaVersion == 1 ==> r == Ok(parsed))
                && (parsed.Some? && parsed.value.schemaVersion != 1 ==> r == Err(UnsupportedSchemaVersion(parsed.value.schemaVersion)))
      ensures r.Ok? ==> !dead && ops == old(ops) + if IdentityFile in files then 2 else 1
    {
      var fate := NextFate();
      if !fate.Succeeds? { return Err(Io); }
      if IdentityFile !in files { return Ok(None); }
      fate := NextFate();
      if !fate.Succeeds? { return Err(Json); }
      r := LoadFrom(codec, files);
    }

    // Everything up to the rename: on success the temporary file is complete and synced.
    method WriteTemporary(codec: Codec, identity: AgentIdentity, name: Name) returns (error: Option<IdentityError>)
      requires !dead
      modifies this`files, this`dead, this`ops
      ensures OnlyChanges(old(files), files, name)
      ensures error.None? <==> name !in old(files) && Succeed(fates, old(ops), old(ops) + 5)
      ensures error.None? ==>
                && name in files && files[name].synced && files[name].content == codec.render(identity) + [10]
                && !dead && ops == old(ops) + 5
      // Which operation failed tells the error.
      ensures error == Some(Json) <==>
                name !in old(files) && Succeed(fates, old(ops), old(ops) + 2) && !fates(old(ops) + 2).Succeeds?
      ensures error in {None, Some(Json), Some(Io)}
      // What was begun is taken away again, if that can be done.
      ensures name !in old(files) && (FailsOnceAt(fates, old(ops), old(ops) + 2) || FailsOnceAt(fates, old(ops), old(ops) + 3) ||
                                      FailsOnceAt(fates, old(ops), old(ops) + 4)) ==>
                name !in files && !dead
    {
      var ok := CreateDirectory();
      if !ok { return Some(Io); }
      ok := CreateNew(name);
      if !ok { return Some(Io); }
      ok := Write(name, codec.render(identity));
      if !ok {
        Remove(name);
        return Some(Json);
      }
      ok := Write(name, NEWLINE);
      if ok {
        ok := Sync(name);
      }
      if !ok {
        Remove(name);
        return Some(Io);
      }
      return None;
    }

    // What every outcome, and every moment of dying, leaves behind.
    method SaveNew(codec: Codec, identity: AgentIdentity, temporary: nat) returns (r: Result<(), IdentityError>)
      requires !dead
      modifies this`files, this`dead, this`ops
      // The published entry is the old one or the whole new one, and the new one is synced.
      ensures Published(files) == Published(old(files)) || Published(files) == Some(Complete(codec, identity))
      // An existing identity is replaced only if Path::exists failed to see it.
      ensures IdentityFile in old(files) && fates(old(ops)).Succeeds? ==> Published(files) == Published(old(files))
      // The result says which, unless the process died on the way.
      ensures r.Ok? ==> Published(files) == Some(Complete(codec, identity)) && Temporary(temporary) !in files && !dead
      ensures r.Err? && !dead ==> Published(files) == Published(old(files))
      // Of all other files only the temporary one can be left over.
      ensures forall n :: n != IdentityFile && n != Temporary(temporary) ==>
                (n in files <==> n in old(files)) && (n in files ==> files[n] == old(files)[n])
      // Exactly when it succeeds: the seven operations in turn, of which the first only has to miss the file.
      ensures r.Ok? <==>
                && identity.schemaVersion == 1
                && !fates(old(ops)).Dies? && (IdentityFile !in old(files) || fates(old(ops)).Fails?)
                && Temporary(temporary) !in old(files) && Succeed(fates, old(ops) + 1, old(ops) + 7)
      // And the errors.
      ensures identity.schemaVersion != 1 <==> r == Err(UnsupportedSchemaVersion(identity.schemaVersion))
      ensures identity.schemaVersion != 1 ==> files == old(files)
      ensures identity.schemaVersion == 1 && IdentityFile in old(files) && fates(old(ops)).Succeeds? ==>
                r == Err(AlreadyExists) && files == old(files)
      ensures r == Err(AlreadyExists) ==> IdentityFile in files
      // A single failing operation leaves no temporary file behind.
      ensures Temporary(temporary) !in old(files) && !fates(old(ops)).Dies? &&
              (FailsOnceAt(fates, old(ops) + 1, old(ops) + 3) || FailsOnceAt(fates, old(ops) + 1, old(ops) + 4) ||
               FailsOnceAt(fates, old(ops) + 1, old(ops) + 5) || FailsOnceAt(fates, old(ops) + 1, old(ops) + 6)) ==>
                Temporary(temporary) !in files
      // A rename that fails where there is an unseen file is reported as such.
      ensures identity.schemaVersion == 1 && Temporary(temporary) !in old(files) && IdentityFile in old(files) &&
              fates(old(ops)).Fails? && FailsOnceAt(fates, old(ops) + 1, old(ops) + 6) && fates(old(ops) + 8).Succeeds? ==>
                r == Err(AlreadyExists)
    {
      if identity.schemaVersion != 1 { return Err(UnsupportedSchemaVersion(identity.schemaVersion)); }
      var present := Exists(IdentityFile);
      if present { return Err(AlreadyExists); }
      if dead { return Err(Io); }
      var error := WriteTemporary(codec, identity, Temporary(temporary));
      if error.Some? { return Err(error.value); }
      var ok := Rename(Temporary(temporary), IdentityFile);
      if ok { return Ok(()); }
      Remove(Temporary(temporary));
      present := Exists(IdentityFile);
      r := Err(if present then AlreadyExists else Io);
    }
  }

  // The end of a process, or of the power.
  ghost predicate CrashLeaves(before: Files, after: Files) {
    after == before || Survives(before, after)
  }

  lemma LoadAfterCrashIsAllOrNothing(codec: Codec, identity: AgentIdentity, before: Files, after: Files, survived: Files)
    requires RoundTrips(codec) && identity.schemaVersion == 1
    requires IdentityFile !in before
    requires Published(after) == Published(before) || Published(after) == Some(Complete(codec, identity))
    requires CrashLeaves(after, survived)
    ensures LoadFrom(codec, survived) == Ok(None) || LoadFrom(codec, survived) == Ok(Some(identity))
  {
    if IdentityFile in survived {
      assert after[IdentityFile] == Complete(codec, identity);
      assert codec.parse(codec.render(identity) + NEWLINE) == Some(identity);
    }
  }

  // A first save that is cut off anywhere, or not at all, and a new process that loads what the
  // crash left: nothing or the complete identity, never a parse error.  Without a power failure a
  // save that reported success is never lost.
  method SaveCrashAndLoad(codec: Codec, identity: AgentIdentity, before: Files, temporary: nat, fates: nat -> Fate,
                          crash: Files -> Files, later: nat -> Fate)
    returns (saved: bool, r: Result<Option<AgentIdentity>, IdentityError>)
    requires RoundTrips(codec) && identity.schemaVersion == 1 && IdentityFile !in before
    requires forall f :: CrashLeaves(f, crash(f))
    ensures Succeed(later, 0, 2) ==> r == Ok(None) || r == Ok(Some(identity))
    ensures Succeed(later, 0, 2) && saved && (forall f :: crash(f) == f) ==> r == Ok(Some(identity))
    ensures saved <==> !fates(0).Dies? && Temporary(temporary) !in before && Succeed(fates, 1, 7)
  {
    var d := new Directory(before, fates);
    var result := d.SaveNew(codec, identity, temporary);
    saved := result.Ok?;
    ghost var after := d.files;
    d := new Directory(crash(d.files), later);
    LoadAfterCrashIsAllOrNothing(codec, identity, before, after, d.files);
    assert codec.parse(codec.render(identity) + NEWLINE) == Some(identity);
    r := d.Load(codec);
  }
}
