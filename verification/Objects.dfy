/** When the object that a manifest's ETags stand for is a given file. */
module Objects {
  import opened Basics
  import opened Plan
  import opened Manifest
  import opened Remote
  import opened Listings
  import opened Sessions
  import opened SessionEnd

  /** The part is known to the store and its ETag stands for the file's bytes at its place. */
  predicate HoldsSlice(plan: MultipartPlan, server: Server, content: Bytes, part: UploadedPart)
    requires plan.Valid() && |content| == plan.fileSize
  {
    KnownPart(plan, server, part) && server.issued[part.etag] == Slice(plan, content, part.number)
  }

  /** Joined bodies of the planned lengths make the file exactly when each is the file's slice. */
  lemma {:induction false} JoinIsFile(plan: MultipartPlan, content: Bytes, bodies: seq<Bytes>)
    requires plan.Valid() && |content| == plan.fileSize && |bodies| == plan.partCount
    requires forall i :: 0 <= i < |bodies| ==> |bodies[i]| == Length(plan, i + 1)
    ensures Join(bodies) == content <==>
            forall i :: 0 <= i < |bodies| ==> bodies[i] == Slice(plan, content, i + 1)
  {
    assert bodies[..plan.partCount] == bodies;
    if forall i :: 0 <= i < |bodies| ==> bodies[i] == Slice(plan, content, i + 1) {
      SlicesJoin(plan, content, bodies, plan.partCount);
    }
    if Join(bodies) == content {
      forall i | 0 <= i < |bodies|
        ensures bodies[i] == Slice(plan, content, i + 1)
      {
        BodyInJoin(plan, bodies, i, plan.partCount);
        EndIsNextOffset(plan, i);
      }
    }
  }

  lemma {:induction false} JoinOneMore(bodies: seq<Bytes>, k: nat)
    requires k < |bodies|
    ensures Join(bodies[..k + 1]) == Join(bodies[..k]) + bodies[k]
  {
    assert bodies[..k + 1][..k] == bodies[..k];
  }

  lemma {:induction false} BodyEnds(plan: MultipartPlan, i: nat)
    requires plan.Valid() && i < plan.partCount
    ensures EndOf(plan, i) + Length(plan, i + 1) == EndOf(plan, i + 1)
  {
    EndIsNextOffset(plan, i);
  }

  lemma {:induction false} BodyInJoin(plan: MultipartPlan, bodies: seq<Bytes>, i: nat, k: nat)
    requires plan.Valid() && |bodies| == plan.partCount && i < k <= |bodies|
    requires forall i :: 0 <= i < |bodies| ==> |bodies[i]| == Length(plan, i + 1)
    ensures EndOf(plan, i) + |bodies[i]| == EndOf(plan, i + 1) <= |Join(bodies[..k])|
    ensures Join(bodies[..k])[EndOf(plan, i)..EndOf(plan, i + 1)] == bodies[i]
    decreases k
  {
    hide Join, EndOf, Length;
    JoinLengths(plan, bodies, k - 1);
    BodyEnds(plan, i);
    JoinOneMore(bodies, k - 1);
    if i < k - 1 {
      BodyInJoin(plan, bodies, i, k - 1);
    }
  }

  function Meaning(server: Server, part: UploadedPart): Bytes {
    if part.etag in server.issued then server.issued[part.etag] else []
  }

  /** The bodies the manifest's ETags stand for, joined. */
  function MeantObject(server: Server, manifest: seq<UploadedPart>): Bytes {
    Join(seq(|manifest|, i requires 0 <= i < |manifest| => Meaning(server, manifest[i])))
  }

  /** A manifest of the whole plan of which every part is reused or holds the file's slice. */
  ghost predicate Sealed(plan: MultipartPlan, server: Server, content: Bytes, manifest: seq<UploadedPart>,
                         reused: seq<UploadedPart>)
    requires plan.Valid() && |content| == plan.fileSize
  {
    && |manifest| == plan.partCount
    && (forall i :: 0 <= i < |manifest| ==> manifest[i].number == i + 1 && KnownPart(plan, server, manifest[i]))
    && (forall i :: 0 <= i < |manifest| ==> manifest[i] in reused || HoldsSlice(plan, server, content, manifest[i]))
    && (forall j :: 0 <= j < |reused| ==> reused[j] in manifest)
  }

  lemma {:induction false} SealedParts(plan: MultipartPlan, server: Server, content: Bytes,
                                       manifest: seq<UploadedPart>, reused: seq<UploadedPart>)
    requires plan.Valid() && |content| == plan.fileSize && Sealed(plan, server, content, manifest, reused)
    ensures (forall i :: 0 <= i < |manifest| ==> HoldsSlice(plan, server, content, manifest[i])) <==>
            (forall j :: 0 <= j < |reused| ==> HoldsSlice(plan, server, content, reused[j]))
  {
    hide HoldsSlice, KnownPart;
    if forall j :: 0 <= j < |reused| ==> HoldsSlice(plan, server, content, reused[j]) {
      forall i | 0 <= i < |manifest|
        ensures HoldsSlice(plan, server, content, manifest[i])
      {
        if manifest[i] in reused {
          var j :| 0 <= j < |reused| && reused[j] == manifest[i];
        }
      }
    }
    if forall i :: 0 <= i < |manifest| ==> HoldsSlice(plan, server, content, manifest[i]) {
      forall j | 0 <= j < |reused|
        ensures HoldsSlice(plan, server, content, reused[j])
      {
        assert reused[j] in manifest;
        var i :| 0 <= i < |manifest| && manifest[i] == reused[j];
      }
    }
  }

  lemma {:induction false} BodiesHoldSlices(plan: MultipartPlan, server: Server, content: Bytes,
                                            manifest: seq<UploadedPart>, bodies: seq<Bytes>)
    requires plan.Valid() && |content| == plan.fileSize && |manifest| == |bodies| == plan.partCount
    requires forall i :: 0 <= i < |manifest| ==>
                           && manifest[i].number == i + 1 && KnownPart(plan, server, manifest[i])
                           && bodies[i] == Meaning(server, manifest[i])
    ensures forall i :: 0 <= i < |bodies| ==> |bodies[i]| == Length(plan, i + 1)
    ensures (forall i :: 0 <= i < |bodies| ==> bodies[i] == Slice(plan, content, i + 1)) <==>
            (forall i :: 0 <= i < |manifest| ==> HoldsSlice(plan, server, content, manifest[i]))
  {
    if forall i :: 0 <= i < |bodies| ==> bodies[i] == Slice(plan, content, i + 1) {
      forall i | 0 <= i < |manifest| ensures HoldsSlice(plan, server, content, manifest[i]) {
        assert bodies[i] == Slice(plan, content, i + 1);
      }
    }
    if forall i :: 0 <= i < |manifest| ==> HoldsSlice(plan, server, content, manifest[i]) {
      forall i | 0 <= i < |bodies| ensures bodies[i] == Slice(plan, content, i + 1) {
        assert HoldsSlice(plan, server, content, manifest[i]);
      }
    }
  }

  lemma {:induction false} SealedObject(plan: MultipartPlan, server: Server, content: Bytes,
                                        manifest: seq<UploadedPart>, reused: seq<UploadedPart>)
    requires plan.Valid() && |content| == plan.fileSize && Sealed(plan, server, content, manifest, reused)
    ensures |MeantObject(server, manifest)| == plan.fileSize
    ensures MeantObject(server, manifest) == content <==>
            forall j :: 0 <= j < |reused| ==> HoldsSlice(plan, server, content, reused[j])
  {
    hide HoldsSlice, KnownPart, Slice, Join, Length;
    var bodies := seq(|manifest|, i requires 0 <= i < |manifest| => Meaning(server, manifest[i]));
    BodiesHoldSlices(plan, server, content, manifest, bodies);
    JoinLengths(plan, bodies, plan.partCount);
    assert bodies[..plan.partCount] == bodies;
    JoinIsFile(plan, content, bodies);
    SealedParts(plan, server, content, manifest, reused);
  }

  /** An answered completion has made the object its manifest stands for. */
  lemma {:induction false} AnsweredObject(session: Session, e: End)
    requires EndInv(session, e) && e.phase == Ended(Succeeded)
    ensures e.inFlight.Some? && e.server.status == Completed(MeantObject(e.server, e.inFlight.value))
  {
    var manifest := e.inFlight.value;
    assert Bodies(e.server, manifest) ==
           seq(|manifest|, i requires 0 <= i < |manifest| => Meaning(e.server, manifest[i]));
  }
}
