/** The generation client of the page: how a reply from the generation endpoint is read,
    and the playlist of generated tracks with its cursor. */
module Client {
  import opened Wrappers
  import opened Text
  import opened Http

  /** A generated track as the player shows it. */
  datatype Track = Track(url: string, title: string, source: string)

  /** Error text used when a failed reply carries no `detail`. */
  const GenerationFailed := "음악 생성 실패"

  /** Error text for a successful reply that is neither deferred nor immediate. */
  const InvalidResponse := "유효한 응답이 아닙니다."

  /** Every alert of a generation attempt starts with this. */
  const AlertPrefix := "음악 생성 중 오류 발생: "

  /** Source label of a track whose reply named none. */
  const DefaultSource := "from MetaTune"

  /** Title of a track whose reply named none, before its 1-based playlist position. */
  const DefaultTitlePrefix := "Generated Song #"

  /** How a reply to the generation request is read. */
  datatype Outcome =
    | Failed(message: string)                                        // non-ok status
    | Deferred(taskId: string)                                       // accepted; the result comes later
    | Immediate(url: string, title: Option<string>, source: Option<string>)
    | Unreadable                                                     // ok status but the body is not JSON
    | Invalid                                                        // ok JSON of any other shape

  /** The branching of the page's generation request, in the page's order. */
  function Classify(resp: Reply): (o: Outcome)
    // 1. a non-ok status fails, with the reply's `detail` when it has one
    ensures o.Failed? <==> !IsOk(resp.status)
    ensures o.Failed? && resp.body.Some? && TruthyField(resp.body.value, "detail").Some?
            ==> o.message == resp.body.value["detail"]
    ensures o.Failed? && (resp.body.None? || TruthyField(resp.body.value, "detail").None?)
            ==> o.message == GenerationFailed
    ensures o.Unreadable? <==> IsOk(resp.status) && resp.body.None?
    // 2. status 202 with a task id is deferred, whatever else the body holds
    ensures o.Deferred? <==> (IsOk(resp.status) && resp.body.Some? && resp.status == 202
                              && TruthyField(resp.body.value, "task_id").Some?)
    ensures o.Deferred? ==> o.taskId == resp.body.value["task_id"]
    // 3. otherwise an ok reply with a url is a track
    ensures o.Immediate? <==> (IsOk(resp.status) && resp.body.Some? && !o.Deferred?
                               && TruthyField(resp.body.value, "url").Some?)
    ensures o.Immediate? ==> (o.url == resp.body.value["url"]
                              && o.title == TruthyField(resp.body.value, "title")
                              && o.source == TruthyField(resp.body.value, "source"))
    // 4. anything else is invalid
    ensures o.Invalid? <==> IsOk(resp.status) && resp.body.Some? && !o.Deferred? && !o.Immediate?
  {
    if !IsOk(resp.status) then
      // the error body is read with `.catch(() => ({}))`: an unreadable body has no detail
      var detail := if resp.body.Some? then TruthyField(resp.body.value, "detail") else None;
      Failed(detail.GetOr(GenerationFailed))
    else if resp.body.None? then
      Unreadable
    else
      var data := resp.body.value;
      if resp.status == 202 && TruthyField(data, "task_id").Some? then
        Deferred(data["task_id"])
      else if IsOk(resp.status) && TruthyField(data, "url").Some? then
        Immediate(data["url"], TruthyField(data, "title"), TruthyField(data, "source"))
      else
        Invalid
  }

  /** The playlist and the index of the track on show, kept together. */
  datatype Playlist = Playlist(tracks: seq<Track>, cursor: nat)

  /** The session starts with no tracks and the cursor at 0. */
  const EmptyPlaylist := Playlist([], 0)

  /** Whenever there are tracks, the cursor points at one of them. */
  predicate Valid(p: Playlist) {
    |p.tracks| > 0 ==> p.cursor < |p.tracks|
  }

  /** The track on show, if any. */
  function Current(p: Playlist): (t: Option<Track>)
    requires Valid(p)
    ensures t.Some? <==> |p.tracks| > 0
    ensures t.Some? ==> t.value in p.tracks
    ensures t.Some? ==> t.value == p.tracks[p.cursor]
  {
    if |p.tracks| > 0 then Some(p.tracks[p.cursor]) else None
  }

  /** The track built from an immediate reply, with the defaults for a missing title or source;
      `count` is the number of tracks already in the playlist. */
  function NewTrack(url: string, title: Option<string>, source: Option<string>, count: nat): (t: Track)
    ensures t.url == url
    ensures title.Some? ==> t.title == title.value
    ensures title.None? ==> t.title == DefaultTitlePrefix + DecimalString(count + 1)
    ensures source.Some? ==> t.source == source.value
    ensures source.None? ==> t.source == DefaultSource
  {
    Track(url, title.GetOr(DefaultTitlePrefix + DecimalString(count + 1)), source.GetOr(DefaultSource))
  }

  /** Append a track and show it. */
  function Append(p: Playlist, t: Track): (r: Playlist)
    ensures |r.tracks| == |p.tracks| + 1 && r.tracks[..|p.tracks|] == p.tracks
    ensures r.tracks[|p.tracks|] == t
    ensures r.cursor == |r.tracks| - 1
    ensures Valid(r) && Current(r) == Some(t)
  {
    Playlist(p.tracks + [t], |p.tracks|)
  }

  /** The "next" button: forward one track, from the last back to the first; nothing on an empty list. */
  function Next(p: Playlist): (r: Playlist)
    ensures r.tracks == p.tracks
    ensures |p.tracks| == 0 ==> r == p
    ensures Valid(p) ==> Valid(r)
    ensures Valid(p) && |p.tracks| > 0 ==> r.cursor == (p.cursor + 1) % |p.tracks|
  {
    if |p.tracks| == 0 then p
    else
      WrapForward(p.cursor, |p.tracks|);
      if p.cursor == |p.tracks| - 1 then p.(cursor := 0) else p.(cursor := p.cursor + 1)
  }

  /** The "previous" button: back one track, from the first to the last; nothing on an empty list. */
  function Prev(p: Playlist): (r: Playlist)
    ensures r.tracks == p.tracks
    ensures |p.tracks| == 0 ==> r == p
    ensures Valid(p) ==> Valid(r)
    ensures Valid(p) && |p.tracks| > 0 ==> r.cursor == (p.cursor + |p.tracks| - 1) % |p.tracks|
  {
    if |p.tracks| == 0 then p
    else
      WrapBackward(p.cursor, |p.tracks|);
      if p.cursor == 0 then p.(cursor := |p.tracks| - 1) else p.(cursor := p.cursor - 1)
  }

  /** "Previous" undoes "next" and "next" undoes "previous". */
  lemma NextPrevInverse(p: Playlist)
    requires Valid(p)
    ensures Prev(Next(p)) == p
    ensures Next(Prev(p)) == p
  {
  }

  /** Pressing "next" `k` times. */
  function NextTimes(p: Playlist, k: nat): Playlist
    decreases k
  {
    if k == 0 then p else NextTimes(Next(p), k - 1)
  }

  /** `k` presses of "next" advance the cursor by `k` positions around the circle. */
  lemma {:induction false} NextTimesCursor(p: Playlist, k: nat)
    requires Valid(p) && |p.tracks| > 0
    ensures NextTimes(p, k).tracks == p.tracks
    ensures NextTimes(p, k).cursor == (p.cursor + k) % |p.tracks|
    decreases k
  {
    if k > 0 {
      var n := |p.tracks|;
      NextTimesCursor(Next(p), k - 1);
      if p.cursor + 1 == n {
        ModPlusN(k - 1, n);
      }
    }
  }

  lemma MulAtLeast(k: int, n: int)
    requires k >= 1 && n > 0
    ensures k * n >= n
  {
  }

  /** Euclidean division is unique: a remainder in range is the remainder. */
  lemma DivUnique(x: int, a: int, b: int, n: int)
    requires n > 0 && 0 <= b < n && x == a * n + b
    ensures x % n == b
  {
    var q, r := x / n, x % n;
    assert (a - q) * n == r - b;
    if a > q { MulAtLeast(a - q, n); }
    if q > a { MulAtLeast(q - a, n); }
  }

  /** One step forward around a circle of `n` positions. */
  lemma WrapForward(c: nat, n: nat)
    requires n > 0
    ensures c + 1 < n ==> (c + 1) % n == c + 1
    ensures c + 1 == n ==> (c + 1) % n == 0
  {
    if c + 1 < n { DivUnique(c + 1, 0, c + 1, n); }
    if c + 1 == n { DivUnique(c + 1, 1, 0, n); }
  }

  /** One step backward around a circle of `n` positions. */
  lemma WrapBackward(c: nat, n: nat)
    requires n > 0
    ensures c == 0 ==> (c + n - 1) % n == n - 1
    ensures 0 < c <= n ==> (c + n - 1) % n == c - 1
  {
    if c == 0 { DivUnique(n - 1, 0, n - 1, n); }
    if 0 < c <= n { DivUnique(c + n - 1, 1, c - 1, n); }
  }

  lemma ModPlusN(j: nat, n: nat)
    requires n > 0
    ensures (j + n) % n == j % n
  {
    DivUnique(j + n, j / n + 1, j % n, n);
  }

  /** Going round the whole playlist with "next" comes back to the same track. */
  lemma FullCircle(p: Playlist)
    requires Valid(p) && |p.tracks| > 0
    ensures NextTimes(p, |p.tracks|) == p
  {
    NextTimesCursor(p, |p.tracks|);
    ModPlusN(p.cursor, |p.tracks|);
    DivUnique(p.cursor, 0, p.cursor, |p.tracks|);
  }

  /** What the page does once a reply has been read. */
  datatype Effect =
    | Alert(text: string)      // an alert; the playlist is untouched
    | Poll(taskId: string)     // the deferred task is followed up elsewhere
    | Play(track: Track)       // the new track is appended and shown

  /** One generation attempt after the reply arrived: the new playlist and the visible effect.
      `parseError` stands for the browser's message when an ok reply's body is not JSON. */
  function Receive(p: Playlist, resp: Reply, parseError: string): (r: (Playlist, Effect))
    ensures Valid(p) ==> Valid(r.0)
    ensures r.1.Play? <==> Classify(resp).Immediate?
    ensures !r.1.Play? ==> r.0 == p
    ensures r.1.Play? ==> r.0 == Append(p, r.1.track)
    ensures r.1.Poll? <==> Classify(resp).Deferred?
    ensures r.1.Alert? ==> |AlertPrefix| <= |r.1.text| && r.1.text[..|AlertPrefix|] == AlertPrefix
    ensures var o := Classify(resp);
      r.1.Play? ==> r.1.track == NewTrack(o.url, o.title, o.source, |p.tracks|)
    ensures r.1.Poll? ==> r.1.taskId == Classify(resp).taskId
    ensures Classify(resp).Failed? ==> r.1 == Alert(AlertPrefix + Classify(resp).message)
    ensures Classify(resp).Invalid? ==> r.1 == Alert(AlertPrefix + InvalidResponse)
    ensures Classify(resp).Unreadable? ==> r.1 == Alert(AlertPrefix + parseError)
  {
    match Classify(resp)
    case Failed(m) => (p, Alert(AlertPrefix + m))
    case Unreadable => (p, Alert(AlertPrefix + parseError))
    case Invalid => (p, Alert(AlertPrefix + InvalidResponse))
    case Deferred(id) => (p, Poll(id))
    case Immediate(url, title, source) =>
      var t := NewTrack(url, title, source, |p.tracks|);
      (Append(p, t), Play(t))
  }

  /** What can happen to the page's playlist: a button press, or a generation reply arriving. */
  datatype PageEvent = PressNext | PressPrev | Arrive(resp: Reply, parseError: string)

  /** The playlist after one event. */
  function Step(p: Playlist, e: PageEvent): Playlist {
    match e
    case PressNext => Next(p)
    case PressPrev => Prev(p)
    case Arrive(resp, parseError) => Receive(p, resp, parseError).0
  }

  /** The playlist after a run of events, oldest first. */
  function Session(p: Playlist, events: seq<PageEvent>): Playlist
    decreases |events|
  {
    if |events| == 0 then p else Session(Step(p, events[0]), events[1..])
  }

  /** Every run of events from a valid playlist (the page starts from the empty one) ends in a valid
      playlist, and tracks are only ever added after the ones already there. */
  lemma {:induction false} SessionKeepsValid(p: Playlist, events: seq<PageEvent>)
    requires Valid(p)
    ensures var r := Session(p, events);
      && Valid(r)
      && |p.tracks| <= |r.tracks|
      && r.tracks[..|p.tracks|] == p.tracks
    decreases |events|
  {
    if |events| > 0 {
      var q := Step(p, events[0]);
      assert |p.tracks| <= |q.tracks| && q.tracks[..|p.tracks|] == p.tracks;
      SessionKeepsValid(q, events[1..]);
      var r := Session(q, events[1..]);
      assert r.tracks[..|q.tracks|] == q.tracks;
      assert r.tracks[..|p.tracks|] == q.tracks[..|p.tracks|];
    }
  }

  /** An ok JSON reply with a non-empty `url`, and not a 202 with a non-empty `task_id`, appends and
      shows the track built from the reply's own fields: its url, its title or "Generated Song #" and
      the new position, its source or "from MetaTune". */
  lemma ImmediateReplyPlays(p: Playlist, resp: Reply, parseError: string)
    requires IsOk(resp.status) && resp.body.Some?
    requires var d := resp.body.value;
      && "url" in d && d["url"] != ""
      && !(resp.status == 202 && "task_id" in d && d["task_id"] != "")
    ensures var d := resp.body.value;
      var t := Track(d["url"],
                     if "title" in d && d["title"] != "" then d["title"]
                     else DefaultTitlePrefix + DecimalString(|p.tracks| + 1),
                     if "source" in d && d["source"] != "" then d["source"] else DefaultSource);
      var (q, e) := Receive(p, resp, parseError);
      && e == Play(t)
      && q.tracks == p.tracks + [t]
      && Current(q) == Some(t)
  {
  }

  /** The track shown after "next" or "previous" is the neighbour of the one shown before, wrapping
      round at either end. */
  lemma NavigationShows(p: Playlist)
    requires Valid(p) && |p.tracks| > 0
    ensures Current(Next(p)) == Some(p.tracks[(p.cursor + 1) % |p.tracks|])
    ensures Current(Prev(p)) == Some(p.tracks[(p.cursor + |p.tracks| - 1) % |p.tracks|])
  {
  }

  /** A failed reply's `detail` reaches the user inside the alert. */
  lemma DetailIsShown(p: Playlist, resp: Reply, parseError: string)
    requires !IsOk(resp.status) && resp.body.Some? && TruthyField(resp.body.value, "detail").Some?
    ensures Receive(p, resp, parseError).1 == Alert(AlertPrefix + resp.body.value["detail"])
  {
  }

  /** A track without a title is named after its 1-based position in the playlist. */
  lemma DefaultTitleIsPosition(p: Playlist, resp: Reply, parseError: string)
    requires Classify(resp).Immediate? && Classify(resp).title.None?
    ensures var (q, e) := Receive(p, resp, parseError);
      && e.Play?
      && |DefaultTitlePrefix| <= |e.track.title|
      && e.track.title[..|DefaultTitlePrefix|] == DefaultTitlePrefix
      && var digits := e.track.title[|DefaultTitlePrefix|..];
         (forall i :: 0 <= i < |digits| ==> IsDigit(digits[i])) && DecimalValue(digits) == |q.tracks|
  {
    var t := Receive(p, resp, parseError).1.track;
    var d := DecimalString(|p.tracks| + 1);
    assert t.title == DefaultTitlePrefix + d;
    assert t.title[|DefaultTitlePrefix|..] == d;
    DecimalRoundTrip(|p.tracks| + 1);
  }
}
