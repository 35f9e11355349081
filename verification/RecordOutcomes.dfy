/** What each mutator of a sound task record needs and what it then changes, and
    what validation and construction accept. */
module RecordOutcomes {
  import opened Ranges
  import opened Network
  import opened TaskRecord
  import Storage

  /** The next revision, stamped with a clock that did not go back. */
  predicate Advances(t: Task, now: nat) { t.updatedAt <= now && t.revision + 1 < U64_LIMIT }

  function Advanced(t: Task, now: nat): Task { t.(revision := t.revision + 1, updatedAt := now) }

  /** A task can be created with 1, 2, 4 or 8 workers, for a URL that normalizes, in
      an acceptable directory; it starts queued, with nothing fetched. */
  lemma CreationExactly(env: Env, id: TaskId, url: string, needsSession: bool, digest: Option<seq<Storage.Byte>>,
                        dir: Path, name: string, workers: nat, now: nat)
    ensures var t := NewTask(env, id, url, needsSession, digest, dir, name, workers, now);
      && (t.Ok? <==> workers in {1, 2, 4, 8} && env.normalizeUrl(url).Some? && env.validPath(dir))
      && (t.Ok? ==>
           && t.value.state == Queued && t.value.revision == 1 && t.value.createdAt == t.value.updatedAt == now
           && t.value.id == id && t.value.originalUrl == env.normalizeUrl(url).value && t.value.workers == workers
           && t.value.destination == dir && t.value.displayName == env.sanitize(name)
           && t.value.expectedSha256 == digest && t.value.needsSession == needsSession
           && t.value.resource.None? && t.value.partialPath.None? && t.value.finalPath.None? && t.value.ranges == [])
  { }

  /** A resource is accepted with a normalizable URL, validators that fit a record,
      a chosen mode, a safe size, and a positive one if it is segmented. */
  lemma ConstructionExactly(env: Env, r: Resource)
    ensures NewResource(env, r).Ok? <==>
      && env.normalizeUrl(r.finalUrl).Some? && ValidValidators(env, r.validators) && r.mode in {Single, Segmented}
      && (r.expectedSize.Some? ==> r.expectedSize.value <= 9_007_199_254_740_991)
      && (r.mode == Segmented ==> r.expectedSize.Some? && r.expectedSize.value > 0)
    ensures NewResource(env, r).Ok? ==> NewResource(env, r).value == r.(finalUrl := env.normalizeUrl(r.finalUrl).value)
  { }

  /** Stored validators are a well-formed tag of at most 8192 characters and a date
      of at most 128 without control characters. */
  lemma StoredValidatorsExactly(env: Env, v: Validators)
    ensures ValidValidators(env, v) <==>
      && (v.etag.Some? ==> ValidOpaque(v.etag.value.opaqueTag) && |FormatEtag(v.etag.value)| <= 8192)
      && (v.lastModified.Some? ==>
           && env.isDate(v.lastModified.value) && |v.lastModified.value| <= 128
           && forall i :: 0 <= i < |v.lastModified.value| ==> !IsControl(v.lastModified.value[i]))
  {
    if v.etag.Some? {
      if ParseEtag(FormatEtag(v.etag.value)).Some? {
        ParsedEtagPrintsBack(FormatEtag(v.etag.value));
        FormatIsInjective(ParseEtag(FormatEtag(v.etag.value)).value, v.etag.value);
      }
      if ValidOpaque(v.etag.value.opaqueTag) { EtagRoundTrip(v.etag.value); }
    }
  }

  /** A record is valid exactly if every part is, and its parts agree. */
  lemma ValidationExactly(env: Env, t: Task)
    ensures ValidateTask(env, t).None? <==>
      && t.revision > 0 && t.createdAt <= t.updatedAt && t.workers in {1, 2, 4, 8}
      && env.normalizeUrl(t.originalUrl) == Some(t.originalUrl) && env.validPath(t.destination)
      && env.sanitize(t.displayName) == t.displayName
      && (t.resource.Some? ==> NewResource(env, t.resource.value).Ok?)
      && (t.partialPath.Some? ==> env.confinedPartial(t.partialPath.value, t.destination))
      && (t.finalPath.Some? ==> env.confinedFinal(t.finalPath.value, t.destination))
      && |t.ranges| <= 8192 && Canonical(t.ranges)
      && (ExpectedSize(t).Some? ==> forall x: nat :: Covers(t.ranges, x) ==> x < ExpectedSize(t).value)
      && Agrees(t)
  {
    if ExpectedSize(t).Some? {
      WithinExactly(t.ranges, ExpectedSize(t).value);
      FullCoverageExactly(t.ranges, ExpectedSize(t).value);
    }
  }

  /** What each state needs: nothing is stored before there is a resource; bytes of
      unknown length are not coverage; a transfer has a partial; from validation on
      every byte is there; and only a published file has a final name. */
  ghost predicate Agrees(t: Task) {
    && (t.resource.None? ==> t.partialPath.None? && t.finalPath.None? && t.ranges == [])
    && (t.resource.Some? && t.resource.value.expectedSize.None? ==>
         t.resource.value.mode == Single && t.finalPath.None? && t.ranges == [])
    && (match t.state
        case Queued | Probing | Failed | Cancelled => t.finalPath.None?
        case Downloading | Paused => t.resource.Some? && t.partialPath.Some? && t.finalPath.None?
        case Validating => Whole(t) && t.partialPath.Some? && t.finalPath.None?
        case Promoting => Whole(t) && (t.partialPath.Some? || t.finalPath.Some?)
        case Completed => Whole(t) && t.finalPath.Some?)
  }

  ghost predicate Whole(t: Task) { ExpectedSize(t).Some? && HoldsExactly(t.ranges, ExpectedSize(t).value) }

  lemma WithinExactly(rs: seq<FileRange>, size: nat)
    ensures Within(rs, size) <==> forall x: nat :: Covers(rs, x) ==> x < size
  {
    if forall x: nat :: Covers(rs, x) ==> x < size {
      forall i | 0 <= i < |rs| ensures rs[i].end <= size {
        assert In(rs[i].end - 1, rs[i]);
        assert Covers(rs, rs[i].end - 1);
      }
    }
  }

  lemma FullCoverageExactly(rs: seq<FileRange>, size: nat)
    ensures Canonical(rs) ==> (HasExactCoverage(rs, size) <==> HoldsExactly(rs, size))
  {
    if Canonical(rs) { FullCoverageIsExact(rs, size); }
  }

  /** A probing record learns its resource, and never a different one once it has a
      partial. */
  lemma ResourceExactly(env: Env, t: Task, r: Resource, now: nat)
    requires Sound(env, t)
    ensures ApplyResource(t, r, now).Ok? <==>
      t.state == Probing && (t.partialPath.None? || t.resource == Some(r)) && Advances(t, now)
    ensures ApplyResource(t, r, now).Ok? ==> ApplyResource(t, r, now).value == Advanced(t, now).(resource := Some(r))
  { }

  /** A probing record gets its first partial, of the resource's length, inside its
      own directory, and takes over the name chosen for it. */
  lemma AttachmentExactly(env: Env, t: Task, p: PartialInfo, now: nat)
    requires Sound(env, t)
    ensures AttachPartial(env, t, p, now).Ok? <==>
      && t.state == Probing && t.resource.Some? && t.partialPath.None? && p.len == ExpectedSize(t)
      && p.parent == t.destination && env.confinedPartial(p.path, t.destination) && Advances(t, now)
    ensures AttachPartial(env, t, p, now).Ok? ==>
      AttachPartial(env, t, p, now).value == Advanced(t, now).(displayName := p.finalName, partialPath := Some(p.path))
  { }

  /** Valid flushed coverage of the record's own partial replaces the recorded one,
      with the length if that was unknown; nothing is written if nothing changed. */
  lemma RefreshExactly(env: Env, t: Task, p: PartialInfo, durable: Result<seq<FileRange>, Storage.StorageError>,
                       now: nat)
    requires Sound(env, t)
    ensures var after := RefreshCompleted(t, p, durable, now);
      && (after.Ok? <==>
           && t.state in {Downloading, Paused, Validating} && t.partialPath == Some(p.path)
           && (ExpectedSize(t).Some? ==> p.len == ExpectedSize(t))
           && durable.Ok? && |durable.value| <= 8192 && Canonical(durable.value)
           && (p.len.Some? ==> forall x: nat :: Covers(durable.value, x) ==> x < p.len.value)
           && (Unchanged(t, p, durable.value) || Advances(t, now)))
      && (after.Ok? ==>
           after.value == if Unchanged(t, p, durable.value) then t
             else Advanced(t, now).(ranges := durable.value,
                                    resource := Some(t.resource.value.(expectedSize := p.len))))
  {
    if durable.Ok? && p.len.Some? { WithinExactly(durable.value, p.len.value); }
  }

  predicate Unchanged(t: Task, p: PartialInfo, ranges: seq<FileRange>) {
    ranges == t.ranges && p.len == ExpectedSize(t)
  }

  /** A failed or cancelled record forgets a deleted partial with its coverage. */
  lemma ForgettingExactly(env: Env, t: Task, now: nat)
    requires Sound(env, t)
    ensures RecordPartialDeletion(t, now).Ok? <==>
      t.state in {Failed, Cancelled} && t.partialPath.Some? && Advances(t, now)
    ensures RecordPartialDeletion(t, now).Ok? ==>
      RecordPartialDeletion(t, now).value == Advanced(t, now).(partialPath := None, ranges := [])
  { }

  /** A promoting record notes one final name inside its directory, and keeps or
      forgets its partial. */
  lemma PromotionExactly(env: Env, t: Task, path: Path, retained: Option<Path>, now: nat)
    requires Sound(env, t)
    ensures RecordPromotion(env, t, path, retained, now).Ok? <==>
      && t.state == Promoting && env.confinedFinal(path, t.destination) && t.finalPath in {None, Some(path)}
      && retained in {None, t.partialPath} && Advances(t, now)
    ensures RecordPromotion(env, t, path, retained, now).Ok? ==>
      RecordPromotion(env, t, path, retained, now).value ==
      Advanced(t, now).(finalPath := Some(path), partialPath := retained)
  { }
}
