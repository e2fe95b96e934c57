/**
  The remote multipart session as the environment. The store may be changed by other clients at any
  time; what is assumed of it is exactly what the guards of the four operations below say:
  an ETag determines content, and parts, completion and abort act on an open session only.
  */
module Remote {
  import opened Basics
  import opened Plan
  import opened Manifest

  datatype Stored = Stored(bytes: Bytes, etag: ETag)

  datatype Status = Open | Completed(content: Bytes) | Aborted

  /** `issued` remembers every ETag the store ever handed out and the bytes it stands for. */
  datatype Server = Server(status: Status, parts: map<nat, Stored>, issued: map<ETag, Bytes>)

  datatype Request =
    | StorePart(number: nat, bytes: Bytes, etag: ETag)
    | CompleteWith(manifest: seq<UploadedPart>)
    | AbortSession

  function Fresh(): Server {
    Server(Open, map[], map[])
  }

  predicate Matches(s: Server, manifest: seq<UploadedPart>) {
    forall i :: 0 <= i < |manifest| ==>
                  manifest[i].number in s.parts && s.parts[manifest[i].number].etag == manifest[i].etag
  }

  predicate CanServe(s: Server, r: Request) {
    && s.status.Open?
    && match r
       case StorePart(_, bytes, etag) => etag in s.issued ==> s.issued[etag] == bytes
       case CompleteWith(manifest) => Matches(s, manifest)
       case AbortSession => true
  }

  /** The bodies of the listed parts as they are stored now. */
  function Bodies(s: Server, manifest: seq<UploadedPart>): seq<Bytes>
    requires Matches(s, manifest)
  {
    seq(|manifest|, i requires 0 <= i < |manifest| => s.parts[manifest[i].number].bytes)
  }

  function Serve(s: Server, r: Request): Server
    requires CanServe(s, r)
  {
    match r
    case StorePart(n, bytes, etag) => s.(parts := s.parts[n := Stored(bytes, etag)], issued := s.issued[etag := bytes])
    case CompleteWith(manifest) => s.(status := Completed(Join(Bodies(s, manifest))))
    case AbortSession => s.(status := Aborted)
  }

  /** Every stored part carries an issued ETag that stands for its bytes. */
  ghost predicate Sound(s: Server) {
    forall n :: n in s.parts ==> s.parts[n].etag in s.issued && s.issued[s.parts[n].etag] == s.parts[n].bytes
  }

  /** What any number of requests by anybody leave true: ETags keep their meaning, stored part
      numbers stay, and a session that is not open is frozen. */
  ghost predicate Evolves(s: Server, t: Server) {
    && (forall e :: e in s.issued ==> e in t.issued && t.issued[e] == s.issued[e])
    && s.parts.Keys <= t.parts.Keys
    && (!s.status.Open? ==> t.status == s.status && t.parts == s.parts)
  }

  lemma {:induction false} EvolvesReflexive(s: Server)
    ensures Evolves(s, s)
  {
  }

  lemma {:induction false} EvolvesTransitive(s: Server, t: Server, u: Server)
    requires Evolves(s, t) && Evolves(t, u)
    ensures Evolves(s, u)
  {
  }

  lemma {:induction false} ServeEvolves(s: Server, r: Request)
    requires Sound(s) && CanServe(s, r)
    ensures Sound(Serve(s, r)) && Evolves(s, Serve(s, r))
  {
  }

  /** Any number of requests by anybody, one after the other. */
  ghost predicate CanServeAll(s: Server, requests: seq<Request>)
    decreases |requests|
  {
    requests == [] || (CanServe(s, requests[0]) && CanServeAll(Serve(s, requests[0]), requests[1..]))
  }

  ghost function ServeAll(s: Server, requests: seq<Request>): Server
    requires CanServeAll(s, requests)
    decreases |requests|
  {
    if requests == [] then s else ServeAll(Serve(s, requests[0]), requests[1..])
  }

  /** Whatever anybody requests and in whatever order, ETags keep their meaning and stored numbers stay;
      a completion or an abort is the last thing that happens to a session. */
  lemma {:induction false} AnyRequestsEvolve(s: Server, requests: seq<Request>)
    requires Sound(s) && CanServeAll(s, requests)
    ensures Sound(ServeAll(s, requests)) && Evolves(s, ServeAll(s, requests))
    ensures forall i :: 0 <= i < |requests| - 1 ==> requests[i].StorePart?
    decreases |requests|
  {
    if requests != [] {
      var t := Serve(s, requests[0]);
      ServeEvolves(s, requests[0]);
      AnyRequestsEvolve(t, requests[1..]);
      EvolvesTransitive(s, t, ServeAll(t, requests[1..]));
      assert |requests| > 1 ==> CanServe(t, requests[1..][0]);
      assert forall i :: 1 <= i < |requests| ==> requests[i] == requests[1..][i - 1];
    }
  }

  /** Each ETag of the manifest is known and stands for the body of its part. */
  ghost predicate StandsFor(s: Server, manifest: seq<UploadedPart>, bodies: seq<Bytes>) {
    && |bodies| == |manifest|
    && forall i :: 0 <= i < |manifest| ==>
                     manifest[i].etag in s.issued && s.issued[manifest[i].etag] == bodies[i]
  }

  /** A completion that succeeds makes the object its ETags stand for, whatever other clients did
      to the parts in between. */
  lemma {:induction false} CompletionIsWhatETagsMean(s: Server, manifest: seq<UploadedPart>, bodies: seq<Bytes>)
    requires Sound(s) && CanServe(s, CompleteWith(manifest)) && StandsFor(s, manifest, bodies)
    ensures Serve(s, CompleteWith(manifest)).status == Completed(Join(bodies))
  {
    assert Bodies(s, manifest) == bodies;
  }

  /** The store never runs out of ETags. */
  lemma {:induction false} UnusedETag(issued: set<ETag>) returns (etag: ETag)
    ensures etag != "" && etag !in issued
  {
    var longest: nat, rest := 0, issued;
    while rest != {}
      invariant rest <= issued && forall e :: e in issued - rest ==> |e| <= longest
      decreases rest
    {
      var e :| e in rest;
      if |e| > longest { longest := |e|; }
      rest := rest - {e};
    }
    etag := seq(longest + 1, _ => 'e');
  }
}
