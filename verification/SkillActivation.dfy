/** The skill-activation transaction: directory moves, governed state and prompt
    cache under one lock, with a fault possible at every effect. */
module SkillActivation {
  import opened Wrappers

  /** A directory of the loadable tree: a skill, or a working name with a fresh uuid. */
  datatype Dir = Skill(id: string) | Temp(uuid: string) | Doomed(uuid: string)

  /** The files of one directory; a file not written yet is absent. */
  datatype Tree = Tree(manifest: Option<string>, body: Option<string>, provenance: Option<Digest>)

  /** A symbolic digest: equal exactly for equal bytes. */
  datatype Digest = Sha256(manifest: string, body: string)

  /** A governed-active record. */
  datatype Record = Record(digest: Digest, enabled: bool)

  type Projection = map<Dir, Tree>

  datatype Kind = Install | Rollback | Disable

  /** Where an effect may raise, when it is reached. */
  datatype Fault =
    | SourceFault | GateFault | MakeTempFault | StagingFault(file: nat) | RetireFault | SwapFault | UnretireFault
    | MoveFault | DropTempFault | PostVerifyFault
    | FirstInvalidationFault | CommitFault | VerifyFault | RevertFault
    | RestoreRetireFault | RestoreSwapFault | RestoreUnretireFault | RestoreDropFault
    | SecondInvalidationFault | DiscardFault

  /** How the transaction ends: a normal return, or one of its exceptions. */
  datatype Outcome =
    | Completed
    | DiscardRaised                       // complete, but deleting the retained copy raised
    | Busy
    | PublishRaised
    | CoordinationError
    | RestoredButCacheUnproven
    | GovernanceRevertedProjectionUnproven
    | RestoreRaised                       // the raw exception of a revert or of a restore
    | SecondInvalidationRaised            // restore and the second invalidation both raised

  /** Fresh uuids for one transaction. */
  datatype Names = Names(temp: string, doomed: string, slot: string, undo: string)

  function DigestOf(t: Tree): Option<Digest>
  {
    if t.manifest.Some? && t.body.Some? then Some(Sha256(t.manifest.value, t.body.value)) else None
  }

  /** The published directory of a package. */
  function Stamped(source: Tree, digest: Digest): Tree { source.(provenance := Some(digest)) }

  /** publish_skill raised and left something other than what it found. */
  predicate Torn(prior: bool, sourceOk: bool, fails: set<Fault>)
  {
    if !sourceOk || SourceFault in fails || GateFault in fails || MakeTempFault in fails then false
    else if StagingFault(0) in fails || StagingFault(1) in fails || StagingFault(2) in fails || (prior && RetireFault in fails)
    then DropTempFault in fails
    else if SwapFault in fails then DropTempFault in fails || (prior && UnretireFault in fails)
    else (prior && MoveFault in fails) || PostVerifyFault in fails
  }

  /** publish_skill returns. */
  predicate PublishWorks(prior: bool, sourceOk: bool, fails: set<Fault>)
  {
    && sourceOk
    && fails !! {SourceFault, GateFault, MakeTempFault, StagingFault(0), StagingFault(1), StagingFault(2), SwapFault, PostVerifyFault}
    && (prior ==> fails !! {RetireFault, MoveFault})
  }

  /** The governed record a commit writes. */
  function Target(kind: Kind, digest: Digest, previous: Option<Record>): Record
  {
    if kind.Disable? && previous.Some? then Record(previous.value.digest, false) else Record(digest, true)
  }

  class SkillRuntime {
    var loadable: Projection           // published_skills
    var retained: map<string, Tree>    // published_skills_retained
    var governed: map<string, Record>  // the store's active records
    var cache: Option<Projection>      // the in-process skills prompt
    var running: set<string>           // hermes_runner.RUNNING

    predicate FreshNames(n: Names)
      reads this
    {
      && Temp(n.temp) !in loadable && Doomed(n.doomed) !in loadable && Doomed(n.undo) !in loadable
      && n.doomed != n.undo && n.slot !in retained
    }

    // ---------- directory operations ----------

    method Rename(from: Dir, to: Dir)
      requires from in loadable && to !in loadable
      modifies this`loadable
      ensures loadable == old(loadable)[to := old(loadable)[from]] - {from}
    {
      loadable := loadable[to := loadable[from]] - {from};
    }

    /** Write the three files into the fresh temp directory; false on a fault. */
    method Stage(temp: Dir, source: Tree, digest: Digest, fails: set<Fault>) returns (ok: bool)
      requires temp !in loadable
      modifies this`loadable
      ensures temp in loadable && loadable - {temp} == old(loadable)
      ensures ok <==> StagingFault(0) !in fails && StagingFault(1) !in fails && StagingFault(2) !in fails
      ensures ok ==> loadable[temp] == Tree(source.manifest, source.body, Some(digest))
    {
      loadable := loadable[temp := Tree(None, None, None)];
      if StagingFault(0) in fails { return false; }
      loadable := loadable[temp := loadable[temp].(manifest := source.manifest)];
      if StagingFault(1) in fails { return false; }
      loadable := loadable[temp := loadable[temp].(body := source.body)];
      if StagingFault(2) in fails { return false; }
      loadable := loadable[temp := loadable[temp].(provenance := Some(digest))];
      return true;
    }

    /** Retire the prior version and move the staged one into place; on a failed swap the
        prior version is moved back. */
    method Swap(sid: string, n: Names, fails: set<Fault>) returns (ok: bool)
      requires Temp(n.temp) in loadable && Doomed(n.doomed) !in loadable
      modifies this`loadable
      ensures ok <==> (Skill(sid) in old(loadable) ==> RetireFault !in fails) && SwapFault !in fails
      ensures ok ==> loadable == (old(loadable) - {Temp(n.temp)})[Skill(sid) := old(loadable)[Temp(n.temp)]]
                                 + (if Skill(sid) in old(loadable) then map[Doomed(n.doomed) := old(loadable)[Skill(sid)]] else map[])
      ensures !ok && !(Skill(sid) in old(loadable) && RetireFault !in fails && UnretireFault in fails) ==> loadable == old(loadable)
      ensures !ok && Skill(sid) in old(loadable) && RetireFault !in fails && UnretireFault in fails ==>
                Skill(sid) !in loadable && Temp(n.temp) in loadable
    {
      var prior := Skill(sid) in loadable;
      if prior {
        if RetireFault in fails { return false; }
        Rename(Skill(sid), Doomed(n.doomed));
      }
      if SwapFault in fails {
        if prior && UnretireFault !in fails { Rename(Doomed(n.doomed), Skill(sid)); }
        return false;
      }
      Rename(Temp(n.temp), Skill(sid));
      return true;
    }

    /** `publish_skill` with a retention root: the retained slot, or an exception. */
    method PublishSkill(sid: string, source: Tree, digest: Digest, n: Names, fails: set<Fault>)
      returns (ok: bool, path: Option<string>)
      requires FreshNames(n)
      modifies this`loadable, this`retained
      ensures ok <==> PublishWorks(Skill(sid) in old(loadable), DigestOf(source) == Some(digest), fails)
      ensures ok ==> loadable == old(loadable)[Skill(sid) := Stamped(source, digest)]
      ensures ok && Skill(sid) in old(loadable) ==>
                path == Some(n.slot) && retained == old(retained)[n.slot := old(loadable)[Skill(sid)]]
      ensures ok && Skill(sid) !in old(loadable) ==> path == None && retained == old(retained)
      // all or nothing, up to and including the swap; never after it
      ensures !ok && !Torn(Skill(sid) in old(loadable), DigestOf(source) == Some(digest), fails) ==>
                loadable == old(loadable) && retained == old(retained)
      ensures !ok && Torn(Skill(sid) in old(loadable), DigestOf(source) == Some(digest), fails) ==>
                !(loadable == old(loadable) && retained == old(retained))
    {
      path := None;
      if SourceFault in fails || DigestOf(source) != Some(digest) { return false, None; }
      if GateFault in fails || MakeTempFault in fails { return false, None; }
      var temp, doomed := Temp(n.temp), Doomed(n.doomed);
      var prior := Skill(sid) in loadable;
      var staged := Stage(temp, source, digest, fails);
      assert loadable - {temp} == old(loadable);
      if !staged {
        if DropTempFault !in fails { loadable := loadable - {temp}; }
        return false, None;
      }
      assert forall d | d != temp :: d in loadable <==> d in old(loadable);
      var swapped := Swap(sid, n, fails);
      if !swapped {
        if DropTempFault !in fails { loadable := loadable - {temp}; }
        return false, None;
      }
      if prior {
        if MoveFault in fails { return false, None; }
        retained := retained[n.slot := loadable[doomed]];
        loadable := loadable - {doomed};
        path := Some(n.slot);
      }
      ok := PostVerifyFault !in fails;
    }

    /** `retain_unpublish_skill`: one rename out of the loadable tree. */
    method RetainUnpublish(sid: string, n: Names, fails: set<Fault>) returns (ok: bool, path: Option<string>)
      requires FreshNames(n)
      modifies this`loadable, this`retained
      ensures ok <==> GateFault !in fails && (Skill(sid) in old(loadable) ==> MoveFault !in fails)
      ensures !ok ==> loadable == old(loadable) && retained == old(retained)
      ensures ok ==> loadable == old(loadable) - {Skill(sid)}
      ensures ok && Skill(sid) in old(loadable) ==>
                path == Some(n.slot) && retained == old(retained)[n.slot := old(loadable)[Skill(sid)]]
      ensures ok && Skill(sid) !in old(loadable) ==> path == None && retained == old(retained)
    {
      if GateFault in fails { return false, None; }
      if Skill(sid) !in loadable { return true, None; }
      if MoveFault in fails { return false, None; }
      retained := retained[n.slot := loadable[Skill(sid)]];
      loadable := loadable - {Skill(sid)};
      return true, Some(n.slot);
    }

    /** `restore_retained_projection`: put the retained directory back, or remove what a
        first publish wrote; false when it raises. */
    method RestoreRetained(sid: string, path: Option<string>, n: Names, fails: set<Fault>) returns (ok: bool)
      requires Doomed(n.undo) !in loadable
      modifies this`loadable, this`retained
      ensures ok && path.None? ==> loadable == old(loadable) - {Skill(sid)} && retained == old(retained)
      ensures ok && path.Some? ==> path.value in old(retained) && retained == old(retained) - {path.value}
                                   && loadable == old(loadable)[Skill(sid) := old(retained)[path.value]]
      ensures !ok && fails !! {RestoreUnretireFault, RestoreDropFault} ==> loadable == old(loadable) && retained == old(retained)
      ensures fails !! {RestoreRetireFault, RestoreSwapFault, RestoreUnretireFault, RestoreDropFault} ==>
                (ok <==> (path.Some? ==> path.value in old(retained)))
    {
      if path.Some? && path.value !in retained { return false; }
      var doomed, published := Doomed(n.undo), Skill(sid) in loadable;
      if published {
        if RestoreRetireFault in fails { return false; }
        Rename(Skill(sid), doomed);
      }
      if path.Some? {
        if RestoreSwapFault in fails {
          if published && RestoreUnretireFault !in fails { Rename(doomed, Skill(sid)); }
          return false;
        }
        loadable := loadable[Skill(sid) := retained[path.value]];
        retained := retained - {path.value};
      }
      if published {
        if RestoreDropFault in fails { return false; }
        loadable := loadable - {doomed};
      }
      return true;
    }

    // ---------- the other callbacks ----------

    /** clear_skills_system_prompt_cache */
    method Invalidate(fails: bool) returns (ok: bool)
      modifies this`cache
      ensures ok == !fails
      ensures cache == if fails then old(cache) else None
    {
      if !fails { cache := None; }
      return !fails;
    }

    /** The store flips the governed record, atomically; rollback and disable demand an
        active record. */
    method Commit(kind: Kind, sid: string, digest: Digest, fails: set<Fault>) returns (ok: bool)
      modifies this`governed
      ensures ok <==> CommitFault !in fails && (kind != Install ==> sid in old(governed))
      ensures governed == if ok then old(governed)[sid := Target(kind, digest, Current(old(governed), sid))] else old(governed)
    {
      if CommitFault in fails || (kind != Install && sid !in governed) { return false; }
      governed := governed[sid := if kind.Disable? then governed[sid].(enabled := false) else Record(digest, true)];
      return true;
    }

    /** The post-commit checks of the three operations. */
    method Verify(kind: Kind, sid: string, digest: Digest, fails: set<Fault>) returns (ok: bool)
      ensures ok <==> VerifyFault !in fails && sid in governed && Verified(kind, digest, governed[sid], Current(loadable, Skill(sid)))
    {
      if VerifyFault in fails || sid !in governed { return false; }
      match kind {
        case Install => return governed[sid] == Record(digest, true) && Skill(sid) in loadable;
        case Rollback =>
          return governed[sid] == Record(digest, true) && Skill(sid) in loadable && DigestOf(loadable[Skill(sid)]) == Some(digest);
        case Disable => return !governed[sid].enabled && Skill(sid) !in loadable;
      }
    }

    /** revert_activation: write the snapshot back if the digest is still the active one. */
    method Revert(sid: string, digest: Digest, previous: Option<Record>, fails: set<Fault>) returns (ok: bool)
      modifies this`governed
      ensures ok <==> RevertFault !in fails
      ensures governed == if ok && sid in old(governed) && old(governed)[sid].digest == digest
                          then Restored(old(governed), sid, previous) else old(governed)
    {
      if RevertFault in fails { return false; }
      if sid in governed && governed[sid].digest == digest {
        governed := if previous.Some? then governed[sid := previous.value] else governed - {sid};
      }
      return true;
    }

    // ---------- ActivationCoordinator.run ----------

    /** The restore callback: governance first, then the projection. */
    method Undo(kind: Kind, sid: string, digest: Digest, landed: bool, previous: Option<Record>, path: Option<string>,
                n: Names, fails: set<Fault>) returns (failure: Option<Outcome>)
      requires Doomed(n.undo) !in loadable
      requires landed && kind != Install ==> previous.Some?
      requires landed ==> sid in governed && governed[sid] == Target(kind, digest, previous)
      modifies this`loadable, this`retained, this`governed
      ensures failure.None? || failure == Some(RestoreRaised) || failure == Some(GovernanceRevertedProjectionUnproven)
      ensures failure == Some(GovernanceRevertedProjectionUnproven) ==> landed
      ensures failure == Some(RestoreRaised) && landed ==> RevertFault in fails
      ensures governed == old(governed) || (landed && governed == Restored(old(governed), sid, previous))
      ensures landed && failure != Some(RestoreRaised) ==> governed == Restored(old(governed), sid, previous)
      ensures landed && RevertFault !in fails ==> governed == Restored(old(governed), sid, previous)
      ensures !landed ==> governed == old(governed)
      ensures failure.None? && path.None? ==> loadable == old(loadable) - {Skill(sid)} && retained == old(retained)
      ensures failure.None? && path.Some? ==> path.value in old(retained) && retained == old(retained) - {path.value}
                                              && loadable == old(loadable)[Skill(sid) := old(retained)[path.value]]
    {
      if landed {
        var reverted := Revert(sid, Target(kind, digest, previous).digest, previous, fails);
        if !reverted { return Some(RestoreRaised); }
      }
      var restored := RestoreRetained(sid, path, n, fails);
      if restored { return None; }
      return Some(if landed then GovernanceRevertedProjectionUnproven else RestoreRaised);
    }

    /** The publish callback: what restore needs, or an exception. */
    method PublishStep(kind: Kind, sid: string, source: Tree, digest: Digest, n: Names, fails: set<Fault>)
      returns (ok: bool, path: Option<string>)
      requires FreshNames(n)
      modifies this`loadable, this`retained
      ensures ok ==> loadable == PublishedFor(kind, old(loadable), sid, source, digest)
      ensures ok ==> path == if Skill(sid) in old(loadable) then Some(n.slot) else None
      ensures ok ==> retained == if Skill(sid) in old(loadable) then old(retained)[n.slot := old(loadable)[Skill(sid)]] else old(retained)
      ensures ok && !kind.Disable? ==> DigestOf(source) == Some(digest)
      ensures !ok && !TornFor(kind, old(loadable), sid, source, digest, fails) ==> loadable == old(loadable) && retained == old(retained)
      ensures !ok && TornFor(kind, old(loadable), sid, source, digest, fails) ==>
                !(loadable == old(loadable) && retained == old(retained))
      ensures fails == {} ==> (ok <==> kind.Disable? || DigestOf(source) == Some(digest))
    {
      if kind.Disable? {
        ok, path := RetainUnpublish(sid, n, fails);
      } else {
        ok, path := PublishSkill(sid, source, digest, n, fails);
      }
    }

    /** First invalidation, commit and verify. */
    method CommitStep(kind: Kind, sid: string, digest: Digest, fails: set<Fault>) returns (landed: bool, verified: bool)
      modifies this`governed, this`cache
      ensures verified ==> landed && cache == None && sid in governed
                           && Verified(kind, digest, governed[sid], Current(loadable, Skill(sid)))
      ensures governed == if landed then old(governed)[sid := Target(kind, digest, Current(old(governed), sid))] else old(governed)
      ensures landed && kind != Install ==> sid in old(governed)
      ensures cache == if FirstInvalidationFault in fails then old(cache) else None
      ensures fails == {} && (kind != Install ==> sid in old(governed)) ==>
                landed && (verified <==> Verified(kind, digest, governed[sid], Current(loadable, Skill(sid))))
    {
      landed, verified := false, false;
      var cleared := Invalidate(FirstInvalidationFault in fails);
      if cleared {
        landed := Commit(kind, sid, digest, fails);
        if landed { verified := Verify(kind, sid, digest, fails); }
      }
    }

    /** Restore, then invalidate again, whatever the restore did. */
    method Unwind(kind: Kind, sid: string, digest: Digest, landed: bool, previous: Option<Record>, path: Option<string>,
                  n: Names, fails: set<Fault>) returns (o: Outcome)
      requires Doomed(n.undo) !in loadable
      requires landed && kind != Install ==> previous.Some?
      requires landed ==> sid in governed && governed[sid] == Target(kind, digest, previous)
      modifies this`loadable, this`retained, this`governed, this`cache
      ensures o in {CoordinationError, RestoredButCacheUnproven, GovernanceRevertedProjectionUnproven, RestoreRaised, SecondInvalidationRaised}
      ensures o.GovernanceRevertedProjectionUnproven? ==> landed
      ensures o.RestoredButCacheUnproven? || o.SecondInvalidationRaised? <==> SecondInvalidationFault in fails
      ensures cache == if SecondInvalidationFault in fails then old(cache) else None
      ensures !landed ==> governed == old(governed)
      ensures landed && (RevertFault !in fails || (!o.RestoreRaised? && !o.SecondInvalidationRaised?)) ==>
                governed == Restored(old(governed), sid, previous)
      ensures o.CoordinationError? || o.RestoredButCacheUnproven? ==>
                (path.None? ==> loadable == old(loadable) - {Skill(sid)} && retained == old(retained))
      ensures o.CoordinationError? || o.RestoredButCacheUnproven? ==>
                (path.Some? ==> path.value in old(retained) && retained == old(retained) - {path.value}
                                && loadable == old(loadable)[Skill(sid) := old(retained)[path.value]])
    {
      var failure := Undo(kind, sid, digest, landed, previous, path, n, fails);
      var again := Invalidate(SecondInvalidationFault in fails);
      if failure.Some? { return if again then failure.value else SecondInvalidationRaised; }
      return if again then CoordinationError else RestoredButCacheUnproven;
    }

    /** Install, roll back or disable one skill under the mutation lock. */
    method Run(kind: Kind, sid: string, source: Tree, digest: Digest, n: Names, fails: set<Fault>) returns (o: Outcome)
      requires FreshNames(n)
      modifies this
      ensures running == old(running)
      ensures o.Busy? <==> old(running) != {}
      ensures o.Busy? ==> loadable == old(loadable) && retained == old(retained) && governed == old(governed) && cache == old(cache)
      // a normal return: both at the target, the cache cleared
      ensures o.Completed? || o.DiscardRaised? ==>
                && governed == old(governed)[sid := Target(kind, digest, Current(old(governed), sid))]
                && cache == None
                && loadable == PublishedFor(kind, old(loadable), sid, source, digest)
      ensures o.Completed? ==> retained == old(retained)
      // the target itself: the package's files with the digest's stamp and an enabled record
      // of that digest, or no directory and the old record switched off
      ensures o.Completed? || o.DiscardRaised? ==> AtTarget(kind, sid, source, digest, Current(old(governed), sid), loadable, governed)
      // both back at the prior state, the cache cleared after the restore
      ensures o.CoordinationError? ==>
                governed == old(governed) && loadable == old(loadable) && retained == old(retained) && cache == None
      // both back at the prior state
      ensures o.RestoredButCacheUnproven? ==> governed == old(governed) && loadable == old(loadable) && retained == old(retained)
      // governance back at the prior state
      ensures o.GovernanceRevertedProjectionUnproven? ==> governed == old(governed) && cache == None
      // publish raised: nothing governed, and nothing published unless it raised after the swap
      ensures o.PublishRaised? ==> governed == old(governed) && cache == old(cache)
      ensures o.PublishRaised? && !TornFor(kind, old(loadable), sid, source, digest, fails) ==>
                loadable == old(loadable) && retained == old(retained)
      ensures o.PublishRaised? && TornFor(kind, old(loadable), sid, source, digest, fails) ==>
                !(loadable == old(loadable) && retained == old(retained))
      // the cache survives a failed second invalidation only if the first one failed too
      ensures o.RestoredButCacheUnproven? || o.SecondInvalidationRaised? ==>
                cache == if FirstInvalidationFault in fails then old(cache) else None
      ensures o.RestoreRaised? ==> cache == None
      // no exception but that of the revert itself leaves governance at the target
      ensures !o.Completed? && !o.DiscardRaised? && RevertFault !in fails ==> governed == old(governed)
      ensures fails == {} && old(running) == {} && (kind != Install ==> sid in old(governed)) ==>
                (o.Completed? <==> kind.Disable? || DigestOf(source) == Some(digest))
    {
      hide TornFor, DigestOf, Stamped, Verified, AtTarget;
      if running != {} { return Busy; }
      var previous := Current(governed, sid);
      if (kind.Disable? || DigestOf(source) == Some(digest)) && (kind != Install ==> previous.Some?) {
        PublishedVerifies(kind, loadable, sid, source, digest, previous);
      }
      var ok, path := PublishStep(kind, sid, source, digest, n, fails);
      if !ok { return PublishRaised; }
      var landed, verified := CommitStep(kind, sid, digest, fails);
      if verified {
        ReachesTarget(kind, old(loadable), old(governed), sid, source, digest);
        if path.Some? {
          if DiscardFault in fails { return DiscardRaised; }
          retained := retained - {path.value};
        }
        return Completed;
      }
      o := Unwind(kind, sid, digest, landed, previous, path, n, fails);
    }
  }

  /** What publish and commit set up passes the post-commit checks. */
  lemma PublishedVerifies(kind: Kind, loadable: Projection, sid: string, source: Tree, digest: Digest, previous: Option<Record>)
    requires kind.Disable? || DigestOf(source) == Some(digest)
    requires kind != Install ==> previous.Some?
    ensures Verified(kind, digest, Target(kind, digest, previous),
                     Current(PublishedFor(kind, loadable, sid, source, digest), Skill(sid)))
  {
  }

  /** What each kind of transaction is for. */
  predicate AtTarget(kind: Kind, sid: string, source: Tree, digest: Digest, previous: Option<Record>,
                     loadable: Projection, governed: map<string, Record>)
  {
    && sid in governed
    && match kind
       case Disable =>
         && Skill(sid) !in loadable
         && previous.Some? && governed[sid] == Record(previous.value.digest, false)
       case _ =>
         && source.manifest.Some? && source.body.Some? && digest == Sha256(source.manifest.value, source.body.value)
         && Skill(sid) in loadable && loadable[Skill(sid)] == Tree(source.manifest, source.body, Some(digest))
         && governed[sid] == Record(digest, true)
  }

  lemma ReachesTarget(kind: Kind, loadable: Projection, governed: map<string, Record>, sid: string, source: Tree, digest: Digest)
    requires kind.Disable? || DigestOf(source) == Some(digest)
    requires kind.Disable? ==> sid in governed
    ensures AtTarget(kind, sid, source, digest, Current(governed, sid), PublishedFor(kind, loadable, sid, source, digest),
                     governed[sid := Target(kind, digest, Current(governed, sid))])
  {
  }

  function PublishedFor(kind: Kind, loadable: Projection, sid: string, source: Tree, digest: Digest): Projection
  {
    if kind.Disable? then loadable - {Skill(sid)} else loadable[Skill(sid) := Stamped(source, digest)]
  }

  predicate TornFor(kind: Kind, loadable: Projection, sid: string, source: Tree, digest: Digest, fails: set<Fault>)
  {
    !kind.Disable? && Torn(Skill(sid) in loadable, DigestOf(source) == Some(digest), fails)
  }

  function Current<K, V>(m: map<K, V>, k: K): Option<V> { if k in m then Some(m[k]) else None }

  function Restored(governed: map<string, Record>, sid: string, previous: Option<Record>): map<string, Record>
  {
    if previous.Some? then governed[sid := previous.value] else governed - {sid}
  }

  /** The post-commit condition of each operation. */
  predicate Verified(kind: Kind, digest: Digest, record: Record, published: Option<Tree>)
  {
    match kind
    case Install => record == Record(digest, true) && published.Some?
    case Rollback => record == Record(digest, true) && published.Some? && DigestOf(published.value) == Some(digest)
    case Disable => !record.enabled && published.None?
  }
}
