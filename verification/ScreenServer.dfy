/** The shared maps as the server changes them (crates/rdesk_server/src/main.rs): every handler
    updates them in place and is proved to be the step ScreenDemand describes. */
module ScreenServer {
  import opened Wrappers
  import opened ScreenDemand

  class AppState {
    var previews: map<string, Host>
    var viewerSessions: map<string, Session>
    var screenDemands: map<string, Demand>
    var frames: map<string, Frame>
    var broadcasters: map<nat, Viewer>
    ghost var issued: set<string>
    ghost var clock: int

    ghost function State(): Relay
      reads this
    {
      Relay(previews, viewerSessions, screenDemands, frames, broadcasters, issued, clock)
    }

    constructor ()
      ensures State() == Relay(map[], map[], map[], map[], map[], {}, 0)
    {
      previews, viewerSessions, screenDemands, frames, broadcasters := map[], map[], map[], map[], map[];
      issued, clock := {}, 0;
    }

    method DemandEntry(d: string) returns (demand: Demand)
      modifies this`screenDemands
      ensures demand == DemandOf(old(State()), d)
      ensures State() == old(State()).(demands := old(screenDemands)[d := demand])
    {
      if d !in screenDemands {
        screenDemands := screenDemands[d := Demand(0, map[])];
      }
      demand := screenDemands[d];
      assert screenDemands == old(screenDemands)[d := demand];
    }

    method ClearDemandFrames(d: string)
      modifies this`frames
      ensures State() == ClearFrames(old(State()), d)
    {
      if d in previews && previews[d].onDemand {
        frames := frames - {d};
      }
    }

    method PruneScreenDemand(d: string, now: int)
      requires d in screenDemands
      modifies this`screenDemands, this`frames
      ensures State() == Prune(old(State()), d, now) && d in screenDemands
    {
      var viewers := screenDemands[d].viewers;
      var kept := viewers;
      var todo := viewers.Keys;
      while todo != {}
        invariant todo <= viewers.Keys
        invariant forall k :: k in kept <==> k in viewers && (k in todo || Alive(State(), viewers[k], now))
        invariant forall k :: k in kept ==> kept[k] == viewers[k]
        decreases |todo|
      {
        var k :| k in todo;
        todo := todo - {k};
        if !(viewers[k].until > now && viewers[k].token in viewerSessions) {
          kept := kept - {k};
        }
      }
      assert kept == LiveViewers(State(), d, now);
      screenDemands := screenDemands[d := screenDemands[d].(viewers := kept)];
      if viewers != map[] && kept == map[] {
        ClearDemandFrames(d);
      }
    }

    method ValidateViewer(d: string, token: string, now: int) returns (ok: bool)
      modifies this`viewerSessions
      ensures ok == ValidViewer(old(State()), d, token, now)
      ensures State() == if ok then Touch(old(State()), token, now) else old(State())
    {
      if token !in viewerSessions {
        return false;
      }
      var session := viewerSessions[token];
      if session.device != d || now - session.seen > VIEWER_SESSION_TTL_MS {
        return false;
      }
      viewerSessions := viewerSessions[token := session.(seen := now)];
      return true;
    }

    method RenewScreenLease(d: string, token: string, key: Key, now: int) returns (ok: bool)
      modifies this`screenDemands, this`frames, this`viewerSessions
      ensures (State(), ok) == Renew(old(State()), d, token, key, now)
    {
      ghost var before := State();
      var demand := DemandEntry(d);
      PruneScreenDemand(d, now);
      PruneEntry(before, d, now);
      ok := ValidateViewer(d, token, now);
      if !ok {
        return;
      }
      LeaseViewer(d, key, Lease(token, now + SCREEN_LEASE_MS));
    }

    /** A lease for a viewer, who begins a new audience when nobody else watches. */
    method LeaseViewer(d: string, key: Key, lease: Lease)
      requires d in screenDemands
      modifies this`screenDemands, this`frames
      ensures State() == AddLease(Admit(old(State()), d), d, key, lease)
    {
      if screenDemands[d].viewers == map[] {
        screenDemands := screenDemands[d := screenDemands[d].(epoch := screenDemands[d].epoch + 1)];
        ClearDemandFrames(d);
      }
      var viewers := screenDemands[d].viewers[key := lease];
      screenDemands := screenDemands[d := screenDemands[d].(viewers := viewers)];
    }

    method ReleaseScreenLease(d: string, key: Key, now: int)
      modifies this`screenDemands, this`frames
      ensures State() == Release(old(State()), d, key, now)
    {
      if d in screenDemands {
        screenDemands := screenDemands[d := screenDemands[d].(viewers := screenDemands[d].viewers - {key})];
        PruneScreenDemand(d, now);
        if screenDemands[d].viewers == map[] {
          ClearDemandFrames(d);
        }
      }
    }

    method UploadFrame(d: string, hostToken: string, captureEpoch: Option<nat>, image: seq<bv8>, now: int)
      returns (refused: Option<Code>)
      modifies this`screenDemands, this`frames, this`broadcasters
      ensures (State(), refused) == Upload(old(State()), d, hostToken, captureEpoch, image, now)
    {
      if d !in previews || previews[d].token != hostToken || now - previews[d].updated > PREVIEW_TTL_MS {
        return Some(Unauthorized);
      }
      ghost var before := State();
      var onDemand := previews[d].onDemand;
      var demand := DemandEntry(d);
      PruneScreenDemand(d, now);
      PruneEntry(before, d, now);
      demand := screenDemands[d];
      if onDemand && (demand.viewers == map[] || captureEpoch != Some(demand.epoch)) {
        return Some(Conflict);
      }
      Keep(d, Frame(image, now, demand.epoch));
      return None;
    }

    /** Broadcast to every subscribed WebSocket of the device, then store. */
    method Keep(d: string, frame: Frame)
      modifies this`frames, this`broadcasters
      ensures State() == old(State()).(sockets := Push(old(State()), d, frame), frames := old(frames)[d := frame])
    {
      var todo := broadcasters.Keys;
      while todo != {}
        invariant todo <= broadcasters.Keys == old(broadcasters).Keys
        invariant frames == old(frames)
        invariant forall k :: k in broadcasters ==>
                    broadcasters[k] == if k in todo then old(broadcasters)[k] else Push(old(State()), d, frame)[k]
        decreases |todo|
      {
        var k :| k in todo;
        todo := todo - {k};
        var v := broadcasters[k];
        if v.device == d && v.subscribed {
          broadcasters := broadcasters[k := v.(queue := v.queue + [frame])];
        }
      }
      assert broadcasters == Push(old(State()), d, frame);
      frames := frames[d := frame];
    }

    /** The first half of a fetch. */
    method RenewForFetch(d: string, token: string, now: int) returns (ok: bool)
      modifies this`screenDemands, this`frames, this`viewerSessions
      ensures (State(), ok) == RenewUrl(old(State()), d, token, now)
    {
      ok := ValidateViewer(d, token, now);
      if ok {
        ok := RenewScreenLease(d, token, Url(token), now);
      }
    }

    /** Whatever other requests do once the demand lock is released. */
    method Others()
      requires Inv(State())
      modifies this
      ensures Inv(State())
    {
      var d: string, ended: bool := *, *;
      if ended {
        DisconnectKeeps(State(), d);
        DisconnectViewersForDevice(d);
      }
    }

    /** A fetch: the frame is read after the lock, so it is that of whatever audience watches then. */
    method FetchFrame(d: string, token: string, now: int, later: int)
      returns (reply: Result<Frame, Code>, ghost renewed: (Relay, bool))
      requires Inv(State())
      modifies this
      ensures Inv(State()) && renewed == RenewUrl(old(State()), d, token, now)
      ensures reply == if renewed.1 then ReadFrame(State(), d, later) else Err(Unauthorized)
      ensures reply.Ok? && OnDemand(State(), d) ==>
                reply.value.under == EpochOf(State(), d) && DemandOf(State(), d).viewers != map[]
    {
      RenewUrlKeeps(State(), d, token, now);
      var ok := RenewForFetch(d, token, now);
      renewed := (State(), ok);
      if !ok {
        return Err(Unauthorized), renewed;
      }
      Others();
      assert FrameOk(State(), d);
      if d !in frames || later - frames[d].at > PREVIEW_TTL_MS {
        return Err(Unavailable), renewed;
      }
      return Ok(frames[d]), renewed;
    }

    static method WithoutToken(viewers: map<Key, Lease>, token: string) returns (kept: map<Key, Lease>)
      ensures kept == map k | k in viewers && viewers[k].token != token :: viewers[k]
    {
      kept := viewers;
      var todo := viewers.Keys;
      while todo != {}
        invariant todo <= viewers.Keys
        invariant forall k :: k in kept <==> k in viewers && (k in todo || viewers[k].token != token)
        invariant forall k :: k in kept ==> kept[k] == viewers[k]
        decreases |todo|
      {
        var k :| k in todo;
        todo := todo - {k};
        if viewers[k].token == token {
          kept := kept - {k};
        }
      }
    }

    method StopViewerScreen(d: string, token: string, now: int) returns (refused: Option<Code>)
      modifies this`screenDemands, this`frames, this`viewerSessions
      ensures (State(), refused) == StopScreen(old(State()), d, token, now)
    {
      ghost var before := State();
      var demand := DemandEntry(d);
      var ok := ValidateViewer(d, token, now);
      if !ok {
        return Some(Unauthorized);
      }
      var kept := WithoutToken(demand.viewers, token);
      screenDemands := screenDemands[d := demand.(viewers := kept)];
      if kept == map[] {
        ClearDemandFrames(d);
      }
      return None;
    }

    method CloseViewerSession(d: string, token: string, now: int) returns (refused: Option<Code>)
      modifies this`screenDemands, this`frames, this`viewerSessions
      ensures (State(), refused) == CloseSession(old(State()), d, token, now)
    {
      ghost var before := State();
      var demand := DemandEntry(d);
      var ok := ValidateViewer(d, token, now);
      if !ok {
        return Some(Unauthorized);
      }
      viewerSessions := viewerSessions - {token};
      assert viewerSessions == before.sessions - {token};
      PruneScreenDemand(d, now);
      return None;
    }

    method DropSessions(d: string)
      modifies this`viewerSessions
      ensures viewerSessions == map t | t in old(viewerSessions)
              && old(viewerSessions)[t].device != d :: old(viewerSessions)[t]
    {
      var todo := viewerSessions.Keys;
      while todo != {}
        invariant todo <= old(viewerSessions).Keys
        invariant forall t :: t in viewerSessions <==>
                                t in old(viewerSessions) && (t in todo || old(viewerSessions)[t].device != d)
        invariant forall t :: t in viewerSessions ==> viewerSessions[t] == old(viewerSessions)[t]
        decreases |todo|
      {
        var t :| t in todo;
        todo := todo - {t};
        if viewerSessions[t].device == d {
          viewerSessions := viewerSessions - {t};
        }
      }
    }

    method DisconnectViewersForDevice(d: string)
      modifies this`screenDemands, this`frames, this`viewerSessions
      ensures State() == DisconnectViewers(old(State()), d)
    {
      var demand := DemandEntry(d);
      DropSessions(d);
      screenDemands := screenDemands[d := demand.(viewers := map[])];
      assert screenDemands == old(screenDemands)[d := demand.(viewers := map[])];
      frames := frames - {d};
    }

    method RemovePreviewState(d: string)
      modifies this`screenDemands, this`frames, this`viewerSessions, this`previews
      ensures State() == RemovePreview(old(State()), d)
    {
      DisconnectViewersForDevice(d);
      previews := previews - {d};
      frames := frames - {d};
    }
  }

  /** The demand entry a handler creates first changes nothing Prune would not. */
  lemma PruneEntry(r: Relay, d: string, now: int)
    ensures Prune(r.(demands := r.demands[d := DemandOf(r, d)]), d, now) == Prune(r, d, now)
  {
    var q := r.(demands := r.demands[d := DemandOf(r, d)]);
    assert LiveViewers(q, d, now) == LiveViewers(r, d, now);
    var live := Demand(EpochOf(r, d), LiveViewers(r, d, now));
    assert q.demands[d := live] == r.demands[d := live];
  }
}
