/** Paginated listings as streams: pages unfolded cursor by cursor, and the objects on them. */
module ListingStreams {
  import opened Basics

  /** The pair of markers of a listing of uploads. */
  datatype Markers = Markers(key: Option<string>, uploadId: Option<string>)

  /** One page; `prefixes` are the common prefixes rolled up by a delimiter. */
  datatype Page<I, C> = Page(items: seq<I>, prefixes: seq<string>, next: Option<C>)

  /** What one request yields: the page built from the response, or the error it was turned into. */
  datatype Reply<I, C> = Fails(error: Error) | Answers(page: Page<I, C>)

  function NonEmpty(marker: Option<string>): Option<string> {
    if marker == Some("") then None else marker
  }

  /** The cursor a response to ListObjectsV2 leaves. */
  function NextToken(truncated: Option<bool>, token: Option<string>): Result<Option<string>, Error> {
    if truncated != Some(true) then Ok(None)
    else if NonEmpty(token).None? then Err(Service)
    else Ok(token)
  }

  /** The pair of cursors a response to ListMultipartUploads leaves; none when both are absent. */
  function NextMarkers(truncated: Option<bool>, key: Option<string>,
                       uploadId: Option<string>): Result<Option<Markers>, Error> {
    if truncated != Some(true) then Ok(None)
    else if NonEmpty(key).None? && NonEmpty(uploadId).None? then Err(Service)
    else Ok(Some(Markers(NonEmpty(key), NonEmpty(uploadId))))
  }

  /** A response that is not truncated ends the listing; a truncated one is accepted exactly when it has
      a usable cursor, and then the next request carries the response's own, each marker as itself. */
  lemma {:induction false} CursorsAreUsable(truncated: Option<bool>, token: Option<string>, key: Option<string>,
                                            uploadId: Option<string>)
    ensures truncated != Some(true) ==> NextToken(truncated, token) == Ok(None)
    ensures truncated == Some(true) ==>
              NextToken(truncated, token) ==
              if token.Some? && token.value != "" then Ok(token) else Err(Service)
    ensures truncated != Some(true) ==> NextMarkers(truncated, key, uploadId) == Ok(None)
    ensures truncated == Some(true) ==>
              var next := NextMarkers(truncated, key, uploadId);
              && (next.Ok? <==> (key.Some? && key.value != "") || (uploadId.Some? && uploadId.value != ""))
              && (next.Err? ==> next.error == Service)
              && (next.Ok? ==>
                    && next.value.Some?
                    && next.value.value.key == (if key == Some("") then None else key)
                    && next.value.value.uploadId == (if uploadId == Some("") then None else uploadId))
  {
  }

  /** A next cursor equal to the one just sent would never end. */
  predicate Stuck<I, C(==)>(cursor: Option<C>, page: Page<I, C>) {
    page.next.Some? && page.next == cursor
  }

  /** The items of `into_pages` when the requests are answered by `tape`, one after the other. */
  function Pages<I, C(==)>(cursor: Option<C>, tape: seq<Reply<I, C>>): seq<Result<Page<I, C>, Error>>
    decreases |tape|
  {
    if tape == [] then []
    else
      match tape[0]
      case Fails(e) => [Err(e)]
      case Answers(page) =>
        if Stuck(cursor, page) then [Err(Service)]
        else [Ok(page)] + if page.next.None? then [] else Pages(page.next, tape[1..])
  }

  /** The cursors of the requests that are sent meanwhile, the one still unanswered included. */
  function Requests<I, C(==)>(cursor: Option<C>, tape: seq<Reply<I, C>>): seq<Option<C>>
    decreases |tape|
  {
    [cursor] +
    if tape == [] || tape[0].Fails? || Stuck(cursor, tape[0].page) || tape[0].page.next.None? then []
    else Requests(tape[0].page.next, tape[1..])
  }

  /** `into_stream`: the objects of each page, or the error. */
  function Objects<I, C>(pages: seq<Result<Page<I, C>, Error>>): seq<Result<I, Error>>
    decreases |pages|
  {
    if pages == [] then []
    else
      (match pages[0]
       case Ok(page) => seq(|page.items|, i requires 0 <= i < |page.items| => Ok(page.items[i]))
       case Err(e) => [Err(e)]) + Objects(pages[1..])
  }

  function AllOk<I>(items: seq<I>): seq<Result<I, Error>> {
    seq(|items|, i requires 0 <= i < |items| => Ok(items[i]))
  }

  lemma {:induction false} AllOkConcat<I>(a: seq<I>, b: seq<I>)
    ensures AllOk(a + b) == AllOk(a) + AllOk(b)
  {
  }

  // ----- For any server -----

  ghost predicate NeverRepeats<C>(requests: seq<Option<C>>) {
    forall i :: 1 <= i < |requests| ==> requests[i].Some? && requests[i] != requests[i - 1]
  }

  lemma {:induction false} OneMoreRequest<C>(first: Option<C>, rest: seq<Option<C>>)
    requires NeverRepeats(rest) && rest != [] && rest[0].Some? && rest[0] != first
    ensures NeverRepeats([first] + rest)
  {
    var requests := [first] + rest;
    forall i | 1 <= i < |requests|
      ensures requests[i].Some? && requests[i] != requests[i - 1]
    {
      assert requests[i] == rest[i - 1];
      if i > 1 { assert requests[i - 1] == rest[i - 2]; }
    }
  }

  /** Whatever the server answers, no two consecutive requests carry the same cursor. */
  lemma {:induction false} NoCursorTwiceInARow<I, C>(cursor: Option<C>, tape: seq<Reply<I, C>>)
    ensures Requests(cursor, tape)[0] == cursor && NeverRepeats(Requests(cursor, tape))
    decreases |tape|
  {
    if |Requests(cursor, tape)| > 1 {
      var next := tape[0].page.next;
      NoCursorTwiceInARow(next, tape[1..]);
      OneMoreRequest(cursor, Requests(next, tape[1..]));
    }
  }

  /** An error is the last item, nothing is requested after it, and no page is requested that is not
      yielded. */
  lemma {:induction false} NothingAfterAnError<I, C>(cursor: Option<C>, tape: seq<Reply<I, C>>)
    ensures var pages := Pages(cursor, tape);
            && (forall i :: 0 <= i < |pages| && pages[i].Err? ==>
                              i == |pages| - 1 && |Requests(cursor, tape)| == |pages|)
            && |pages| <= |Requests(cursor, tape)| <= |pages| + 1
            && (|pages| < |tape| ==> |Requests(cursor, tape)| == |pages|)
    decreases |tape|
  {
    if tape != [] && tape[0].Answers? && !Stuck(cursor, tape[0].page) && tape[0].page.next.Some? {
      var rest := Pages(tape[0].page.next, tape[1..]);
      NothingAfterAnError(tape[0].page.next, tape[1..]);
      assert forall i :: 0 <= i < |rest| ==> Pages(cursor, tape)[i + 1] == rest[i];
    }
  }

  /** What item number i is made of: the answered page itself, or the error of the failed request, or the
      error for an answer that would send the same cursor again. */
  ghost predicate MadeOf<I, C>(request: Option<C>, reply: Reply<I, C>, item: Result<Page<I, C>, Error>) {
    match reply
    case Fails(error) => item == Err(error)
    case Answers(page) => if page.next.Some? && page.next == request then item == Err(Service) else item == Ok(page)
  }

  /** The stream yields exactly what its requests were answered, asks for the next page with the cursor
      of the last one, and stops only at an error or at a page without a next cursor. */
  lemma {:induction false} PagesFollowReplies<I, C>(cursor: Option<C>, tape: seq<Reply<I, C>>)
    ensures var pages, requests := Pages(cursor, tape), Requests(cursor, tape);
            && |pages| <= |tape| && |pages| <= |requests|
            && (forall i :: 0 <= i < |pages| ==> MadeOf(requests[i], tape[i], pages[i]))
            && (forall i :: 0 <= i < |pages| && i + 1 < |requests| ==>
                              pages[i].Ok? && pages[i].value.next.Some? && requests[i + 1] == pages[i].value.next)
            && (|pages| == |requests| ==> pages[|pages| - 1].Err? || pages[|pages| - 1].value.next.None?)
            && (|pages| < |requests| ==> |pages| == |tape|)
    decreases |tape|
  {
    if tape != [] && tape[0].Answers? && !Stuck(cursor, tape[0].page) && tape[0].page.next.Some? {
      var page := tape[0].page;
      PagesFollowReplies(page.next, tape[1..]);
      OneMorePage(cursor, tape);
    }
  }

  lemma {:induction false} OneMorePage<I, C>(cursor: Option<C>, tape: seq<Reply<I, C>>)
    requires tape != [] && tape[0].Answers? && !Stuck(cursor, tape[0].page) && tape[0].page.next.Some?
    ensures Pages(cursor, tape) == [Ok(tape[0].page)] + Pages(tape[0].page.next, tape[1..])
    ensures Requests(cursor, tape) == [cursor] + Requests(tape[0].page.next, tape[1..])
  {
  }

  /** The items of the first `k` answers, in order. */
  function AnsweredItems<I, C>(tape: seq<Reply<I, C>>, k: nat): seq<I>
    requires k <= |tape| && forall i :: 0 <= i < k ==> tape[i].Answers?
  {
    if k == 0 then [] else AnsweredItems(tape, k - 1) + tape[k - 1].page.items
  }

  lemma {:induction false} ObjectsConcat<I, C>(a: seq<Result<Page<I, C>, Error>>, b: seq<Result<Page<I, C>, Error>>)
    ensures Objects(a + b) == Objects(a) + Objects(b)
    decreases |a|
  {
    if a == [] {
      assert a + b == b;
    } else {
      assert (a + b)[0] == a[0] && (a + b)[1..] == a[1..] + b;
      ObjectsConcat(a[1..], b);
    }
  }

  lemma {:induction false} ObjectsOfOne<I, C>(item: Result<Page<I, C>, Error>)
    ensures Objects([item]) == match item case Ok(page) => AllOk(page.items) case Err(e) => [Err(e)]
  {
    assert [item][1..] == [];
  }

  lemma {:induction false} PrefixObjects<I, C>(pages: seq<Result<Page<I, C>, Error>>, tape: seq<Reply<I, C>>, k: nat)
    requires k <= |pages| && k <= |tape|
    requires forall i :: 0 <= i < k ==> pages[i].Ok? && tape[i] == Answers(pages[i].value)
    ensures Objects(pages[..k]) == AllOk(AnsweredItems(tape, k))
  {
    if k == 0 {
      assert pages[..0] == [];
    } else {
      PrefixObjects(pages, tape, k - 1);
      assert pages[..k] == pages[..k - 1] + [pages[k - 1]];
      ObjectsConcat(pages[..k - 1], [pages[k - 1]]);
      ObjectsOfOne(pages[k - 1]);
      AllOkConcat(AnsweredItems(tape, k - 1), tape[k - 1].page.items);
    }
  }

  /** For every server: the object stream yields exactly the objects of the answered pages, in order, and
      then, if the page stream ended in an error, that error as its last item. */
  lemma {:induction false} ObjectsAndError<I, C>(cursor: Option<C>, tape: seq<Reply<I, C>>)
    ensures var pages := Pages(cursor, tape);
            var failed := pages != [] && pages[|pages| - 1].Err?;
            var answered := if failed then |pages| - 1 else |pages|;
            && answered <= |tape| && (forall i :: 0 <= i < answered ==> tape[i].Answers?)
            && Objects(pages) ==
               AllOk(AnsweredItems(tape, answered)) + if failed then [Err(pages[|pages| - 1].error)] else []
  {
    hide Pages, Requests, Objects, AllOk, AnsweredItems;
    var pages := Pages(cursor, tape);
    PagesFollowReplies(cursor, tape);
    NothingAfterAnError(cursor, tape);
    var failed := pages != [] && pages[|pages| - 1].Err?;
    var answered := if failed then |pages| - 1 else |pages|;
    forall i | 0 <= i < answered
      ensures pages[i].Ok? && tape[i] == Answers(pages[i].value)
    {
      assert MadeOf(Requests(cursor, tape)[i], tape[i], pages[i]);
    }
    PrefixObjects(pages, tape, answered);
    if failed {
      assert pages == pages[..answered] + [pages[answered]];
      ObjectsConcat(pages[..answered], [pages[answered]]);
      ObjectsOfOne(pages[answered]);
    } else {
      assert pages[..answered] == pages;
    }
  }

  /** So an object stream that is finished and yielded no error has seen a last page without a next
      cursor: a listing that was cut off never looks complete. */
  lemma {:induction false} NoErrorMeansComplete<I, C>(cursor: Option<C>, tape: seq<Reply<I, C>>)
    requires |Requests(cursor, tape)| == |Pages(cursor, tape)|
    requires forall i :: 0 <= i < |Objects(Pages(cursor, tape))| ==> Objects(Pages(cursor, tape))[i].Ok?
    ensures var pages := Pages(cursor, tape);
            && pages != [] && |pages| <= |tape|
            && (forall i :: 0 <= i < |pages| ==> tape[i].Answers?) && tape[|pages| - 1].page.next.None?
            && Objects(pages) == AllOk(AnsweredItems(tape, |pages|))
  {
    hide Objects, AnsweredItems, AllOk, Pages;
    PagesFollowReplies(cursor, tape);
    ObjectsAndError(cursor, tape);
    var pages := Pages(cursor, tape);
    assert |Requests(cursor, tape)| >= 1;
    if pages[|pages| - 1].Err? {
      assert Objects(pages)[|Objects(pages)| - 1].Err?;
    }
    assert MadeOf(Requests(cursor, tape)[|pages| - 1], tape[|pages| - 1], pages[|pages| - 1]);
  }

  /** Flattening keeps that: after an error the object stream yields nothing more. */
  lemma {:induction false} NothingAfterAnErrorInObjects<I, C>(pages: seq<Result<Page<I, C>, Error>>)
    requires forall i :: 0 <= i < |pages| && pages[i].Err? ==> i == |pages| - 1
    ensures forall i :: 0 <= i < |Objects(pages)| && Objects(pages)[i].Err? ==> i == |Objects(pages)| - 1
    decreases |pages|
  {
    if pages != [] {
      assert forall i :: 0 <= i < |pages[1..]| ==> pages[1..][i] == pages[i + 1];
      NothingAfterAnErrorInObjects(pages[1..]);
      if pages[0].Err? { assert pages[1..] == []; }
    }
  }

  // ----- The cursors a stream sends itself -----

  /** The reply was made from a response to ListObjectsV2. */
  ghost predicate FromObjects<I>(reply: Reply<I, string>) {
    reply.Answers? ==>
      exists truncated: Option<bool>, token: Option<string> :: NextToken(truncated, token) == Ok(reply.page.next)
  }

  /** The reply was made from a response to ListMultipartUploads. */
  ghost predicate FromUploads<I>(reply: Reply<I, Markers>) {
    reply.Answers? ==>
      exists truncated: Option<bool>, key: Option<string>, uploadId: Option<string> ::
        NextMarkers(truncated, key, uploadId) == Ok(reply.page.next)
  }

  /** `send` refuses an empty token. A stream that starts with a usable one never sends one that is
      refused, whatever the responses say. */
  lemma {:induction false} TokensStayUsable<I>(cursor: Option<string>, tape: seq<Reply<I, string>>)
    requires cursor != Some("") && forall i :: 0 <= i < |tape| ==> FromObjects(tape[i])
    ensures forall i :: 0 <= i < |Requests(cursor, tape)| ==> Requests(cursor, tape)[i] != Some("")
    decreases |tape|
  {
    if |Requests(cursor, tape)| > 1 {
      var next := tape[0].page.next;
      assert FromObjects(tape[0]);
      var truncated: Option<bool>, token: Option<string> :| NextToken(truncated, token) == Ok(next);
      CursorsAreUsable(truncated, token, None, None);
      TokensStayUsable(next, tape[1..]);
    }
  }

  /** Two markers that `send` accepts: none of them empty. */
  predicate Usable(markers: Markers) {
    markers.key != Some("") && markers.uploadId != Some("")
  }

  /** The same for the pair of markers; and only the first request can go without any marker. */
  lemma {:induction false} MarkersStayUsable<I>(cursor: Option<Markers>, tape: seq<Reply<I, Markers>>)
    requires cursor.Some? ==> Usable(cursor.value)
    requires forall i :: 0 <= i < |tape| ==> FromUploads(tape[i])
    ensures var requests := Requests(cursor, tape);
            && (forall i :: 0 <= i < |requests| && requests[i].Some? ==> Usable(requests[i].value))
            && (forall i :: 1 <= i < |requests| ==> requests[i].Some? && requests[i].value != Markers(None, None))
    decreases |tape|
  {
    if |Requests(cursor, tape)| > 1 {
      var next := tape[0].page.next;
      assert FromUploads(tape[0]);
      var truncated: Option<bool>, key: Option<string>, uploadId: Option<string> :|
        NextMarkers(truncated, key, uploadId) == Ok(next);
      CursorsAreUsable(truncated, None, key, uploadId);
      MarkersStayUsable(next, tape[1..]);
      assert Requests(cursor, tape)[1..] == Requests(next, tape[1..]);
      forall i | 1 <= i < |Requests(cursor, tape)|
        ensures Requests(cursor, tape)[i].Some? && Requests(cursor, tape)[i].value != Markers(None, None)
        ensures Usable(Requests(cursor, tape)[i].value)
      {
        assert Requests(cursor, tape)[i] == Requests(next, tape[1..])[i - 1];
        assert Requests(next, tape[1..])[0] == next;
      }
    }
  }

  // ----- Against a finite listing -----

  /** An entry of a listing: an object, or a common prefix that stands for some. */
  datatype Entry<I> = Item(value: I) | Prefix(name: string)

  function ItemsOf<I>(entries: seq<Entry<I>>): seq<I> {
    if entries == [] then [] else (if entries[0].Item? then [entries[0].value] else []) + ItemsOf(entries[1..])
  }

  lemma {:induction false} ItemsConcat<I>(a: seq<Entry<I>>, b: seq<Entry<I>>)
    ensures ItemsOf(a + b) == ItemsOf(a) + ItemsOf(b)
    decreases |a|
  {
    if a == [] {
      assert a + b == b;
    } else {
      assert (a + b)[0] == a[0] && (a + b)[1..] == a[1..] + b;
      ItemsConcat(a[1..], b);
    }
  }

  /** The server answers from `from` on: each page is the next stretch of the listing, and its cursor
      stands for a place further on. Nothing is assumed of the cursors themselves. */
  ghost predicate Advancing<I, C>(all: seq<Entry<I>>, place: C -> nat, from: nat, tape: seq<Reply<I, C>>)
    decreases |tape|
  {
    tape != [] ==>
      && tape[0].Answers?
      && var page := tape[0].page;
      match page.next
      case None => from <= |all| && page.items == ItemsOf(all[from..])
      case Some(next) =>
        && from < place(next) <= |all| && page.items == ItemsOf(all[from..place(next)])
        && Advancing(all, place, place(next), tape[1..])
  }

  /** Where a request with this cursor starts. */
  ghost function PlaceOf<C>(place: C -> nat, start: nat, cursor: Option<C>): nat {
    match cursor
    case None => start
    case Some(c) => place(c)
  }

  /** What is still to be yielded after the answers of `tape`; empty once the listing is complete. */
  ghost function Left<I, C>(all: seq<Entry<I>>, place: C -> nat, from: nat, tape: seq<Reply<I, C>>): seq<Entry<I>>
    requires Advancing(all, place, from, tape) && from <= |all|
    decreases |tape|
  {
    if tape == [] then all[from..]
    else
      match tape[0].page.next
      case None => []
      case Some(next) => Left(all, place, place(next), tape[1..])
  }

  lemma {:induction false} FirstPage<I, C>(page: Page<I, C>, rest: seq<Result<Page<I, C>, Error>>)
    ensures Objects([Ok(page)] + rest) == AllOk(page.items) + Objects(rest)
  {
    assert ([Ok(page)] + rest)[1..] == rest;
  }

  lemma {:induction false} SplitListing<I>(all: seq<Entry<I>>, from: nat, to: nat)
    requires from <= to <= |all|
    ensures AllOk(ItemsOf(all[from..])) == AllOk(ItemsOf(all[from..to])) + AllOk(ItemsOf(all[to..]))
  {
    assert all[from..] == all[from..to] + all[to..];
    ItemsConcat(all[from..to], all[to..]);
    AllOkConcat(ItemsOf(all[from..to]), ItemsOf(all[to..]));
  }

  /** At every moment the objects yielded and those left are exactly the listing, in its order. */
  lemma {:induction false} YieldedAndLeft<I, C>(all: seq<Entry<I>>, place: C -> nat, start: nat, cursor: Option<C>,
                                                tape: seq<Reply<I, C>>)
    requires var from := PlaceOf(place, start, cursor); from <= |all| && Advancing(all, place, from, tape)
    ensures var from := PlaceOf(place, start, cursor);
            Objects(Pages(cursor, tape)) + AllOk(ItemsOf(Left(all, place, from, tape))) == AllOk(ItemsOf(all[from..]))
    decreases |tape|
  {
    hide Objects, ItemsOf, AllOk;
    var from := PlaceOf(place, start, cursor);
    NothingYielded<I, C>();
    if tape != [] {
      var page := tape[0].page;
      if page.next.None? {
        FirstPage(page, []);
      } else {
        var to := place(page.next.value);
        FirstPage(page, Pages(page.next, tape[1..]));
        YieldedAndLeft(all, place, start, page.next, tape[1..]);
        SplitListing(all, from, to);
      }
    }
  }

  lemma {:induction false} NothingYielded<I, C>()
    ensures Objects<I, C>([]) == [] && AllOk<I>(ItemsOf<I>([])) == []
  {
  }

  lemma {:induction false} ListingEnds<I, C>(all: seq<Entry<I>>, place: C -> nat, from: nat, tape: seq<Reply<I, C>>)
    requires from <= |all| && Advancing(all, place, from, tape) && |tape| > |all| - from
    ensures Left(all, place, from, tape) == []
    decreases |tape|
  {
    if tape[0].page.next.Some? {
      ListingEnds(all, place, place(tape[0].page.next.value), tape[1..]);
    }
  }

  lemma {:induction false} FewRequests<I, C>(all: seq<Entry<I>>, place: C -> nat, start: nat, cursor: Option<C>,
                                             tape: seq<Reply<I, C>>)
    requires var from := PlaceOf(place, start, cursor); from <= |all| && Advancing(all, place, from, tape)
    ensures |Requests(cursor, tape)| <= |all| - PlaceOf(place, start, cursor) + 1
    decreases |tape|
  {
    if tape != [] && tape[0].page.next.Some? {
      FewRequests(all, place, start, tape[0].page.next, tape[1..]);
    }
  }

  /** Against a server whose cursors advance over a finite listing, the stream ends after at most one
      request more than there are entries, without an error, and has yielded every object exactly
      once, in order. */
  lemma {:induction false} StreamYieldsTheListing<I, C>(all: seq<Entry<I>>, place: C -> nat, tape: seq<Reply<I, C>>)
    requires Advancing(all, place, 0, tape) && |tape| > |all|
    ensures Objects(Pages(None, tape)) == AllOk(ItemsOf(all))
    ensures |Requests(None, tape)| == |Pages(None, tape)| <= |all| + 1
  {
    YieldedAndLeft(all, place, 0, None, tape);
    ListingEnds(all, place, 0, tape);
    assert all[0..] == all;
    FewRequests(all, place, 0, None, tape);
    AnsweredAll(all, place, 0, None, tape);
  }

  lemma {:induction false} AnsweredAll<I, C>(all: seq<Entry<I>>, place: C -> nat, start: nat, cursor: Option<C>,
                                             tape: seq<Reply<I, C>>)
    requires var from := PlaceOf(place, start, cursor);
             from <= |all| && Advancing(all, place, from, tape) && |tape| > |all| - from
    ensures |Requests(cursor, tape)| == |Pages(cursor, tape)|
    decreases |tape|
  {
    if tape[0].page.next.Some? {
      AnsweredAll(all, place, start, tape[0].page.next, tape[1..]);
    }
  }
}
