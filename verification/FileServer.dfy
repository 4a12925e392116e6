/** The file relay as the server runs it: an atomic counter, the store, and one upload request from
    admission to the end, with other requests running at every await. */
module FileServer {
  import opened Wrappers
  import opened FileRelay

  datatype Reply = Saved | Failed(status: nat)

  class Server {
    var fileBytes: nat
    var fileStore: map<string, Blob>
    var uploads: map<nat, Upload>
    var cleared: map<nat, Clearance>
    ghost var handed: seq<Handed>
    ghost var issued: map<string, string>
    /** The bytes of every body taken. */
    ghost var received: map<string, seq<bv8>>

    ghost function State(): Relay
      reads this
    {
      Relay(fileBytes, uploads, fileStore, cleared, handed, issued, received)
    }

    constructor ()
      ensures Inv(State()) && fileBytes == 0 && fileStore == map[]
    {
      fileBytes, fileStore, uploads, cleared, handed, issued := 0, map[], map[], map[], [], map[];
      received := map[];
      new;
      assert Reserved(uploads) == map[];
    }

    /** FileReservation::try_new behind the size check of admit_file. */
    method AdmitFile(u: nat, device: string, declared: Option<nat>) returns (status: nat)
      requires u !in uploads
      modifies this`fileBytes, this`uploads
      ensures declared.None? ==> status == 411 && State() == old(State())
      ensures declared.Some? ==> State() == After(old(State()), Admit(u, device, declared.value))
      ensures declared.Some? ==>
                status == if 52_428_800 < declared.value then 413
                          else if 157_286_400 < old(fileBytes) + declared.value then 507 else 0
      ensures status == 0 ==> declared.Some? && u in uploads && uploads[u] == Upload(device, declared.value, Receiving)
    {
      if declared.None? {
        return 411;
      }
      var size := declared.value;
      if size > FILE_MAX_BYTES {
        return 413;
      }
      if fileBytes + size > FILE_STORE_MAX_BYTES {
        return 507;
      }
      fileBytes := fileBytes + size;
      uploads := uploads[u := Upload(device, size, Receiving)];
      return 0;
    }

    /** The body is complete only at exactly its declared length; then the store holds it. */
    method TakeBody(u: nat, data: seq<bv8>, file: string, now: nat) returns (ok: bool)
      requires u in uploads && uploads[u].stage.Receiving? && file !in issued
      modifies this`fileStore, this`uploads, this`issued, this`received
      ensures State() == After(old(State()), Body(u, data, file, now))
      ensures ok <==> |data| == old(uploads)[u].bytes
      ensures if ok then uploads[u].stage == Holding(file) && received == old(received)[file := data]
                         && fileStore == old(fileStore)[file := Blob(old(uploads)[u].device, data, now)]
              else uploads[u].stage == Ending && received == old(received) && fileStore == old(fileStore)
    {
      var p := uploads[u];
      if |data| != p.bytes {
        uploads := uploads[u := p.(stage := Ending)];
        return false;
      }
      fileStore := fileStore[file := Blob(p.device, data, now)];
      uploads := uploads[u := p.(stage := Holding(file))];
      issued, received := issued[file := p.device], received[file := data];
      return true;
    }

    /** HeldFile dropped. */
    method DropHeld(u: nat)
      requires u in uploads && uploads[u].stage.Holding?
      modifies this`fileStore, this`uploads
      ensures State() == After(old(State()), Drop(u))
    {
      fileStore := fileStore - {uploads[u].stage.file};
      uploads := uploads[u := uploads[u].(stage := Ending)];
    }

    /** FileReservation dropped: the subtraction never wraps. */
    method DropReservation(u: nat)
      requires Inv(State()) && u in uploads && !uploads[u].stage.Holding?
      modifies this`fileBytes, this`uploads
      ensures State() == After(old(State()), FileRelay.Step.Release(u))
      ensures fileBytes == old(fileBytes) - old(uploads)[u].bytes
    {
      ReleaseKeeps(State(), FileRelay.Step.Release(u));
      fileBytes := fileBytes - uploads[u].bytes;
      uploads := uploads - {u};
    }

    /** cleanup_expired drops files older than five minutes. */
    method SweepFiles(now: nat)
      modifies this`fileStore
      ensures State() == After(old(State()), Sweep(now))
      ensures forall f :: f in fileStore <==> f in old(fileStore) && now <= old(fileStore)[f].created + 300_000
      ensures forall f :: f in fileStore ==> fileStore[f] == old(fileStore)[f]
    {
      var todo := fileStore.Keys;
      while todo != {}
        invariant todo <= old(fileStore).Keys
        invariant forall f :: f in fileStore <==> f in old(fileStore) && (f in todo || !Stale(old(fileStore)[f], now))
        invariant forall f :: f in fileStore ==> fileStore[f] == old(fileStore)[f]
        decreases |todo|
      {
        var f :| f in todo;
        todo := todo - {f};
        if now > fileStore[f].created && now - fileStore[f].created > FILE_TTL_MS {
          fileStore := fileStore - {f};
        }
      }
    }

    /** A host's download in its two steps: the ownership check, then the removal, which only one of
        several concurrent downloads can win. */
    method CheckOwner(c: nat, file: string, device: string) returns (owned: bool)
      requires c !in cleared
      modifies this`cleared
      ensures State() == After(old(State()), Ask(c, file, device))
      ensures owned <==> file in fileStore && fileStore[file].device == device
      ensures cleared == if owned then old(cleared)[c := Clearance(file, device)] else old(cleared)
    {
      owned := file in fileStore && fileStore[file].device == device;
      if owned {
        cleared := cleared[c := Clearance(file, device)];
      }
    }

    method TakeFile(c: nat) returns (data: Option<seq<bv8>>)
      requires Inv(State()) && c in cleared
      modifies this`cleared, this`fileStore, this`handed
      ensures State() == After(old(State()), Take(c))
      ensures var h := old(cleared)[c];
              if h.file in old(fileStore) then
                h.file in received && data == Some(received[h.file]) && h.file !in fileStore
                && handed == old(handed) + [Handed(h.file, h.device, received[h.file])]
              else data == None && handed == old(handed)
    {
      var h := cleared[c];
      cleared := cleared - {c};
      if h.file !in fileStore {
        return None;
      }
      data := Some(fileStore[h.file].data);
      fileStore := fileStore - {h.file};
      handed := handed + [Handed(h.file, h.device, data.value)];
    }

    /** Whatever the other requests do while this one waits; their file ids are their own. */
    method Others(u: nat, file: string, now: nat)
      requires Inv(State())
      modifies this
      ensures Inv(State())
      ensures u in old(uploads) ==> u in uploads && uploads[u] == old(uploads)[u]
      ensures u !in old(uploads) ==> u !in uploads
      ensures file in old(issued) <==> file in issued
      ensures file in old(received) ==> file in received && received[file] == old(received)[file]
    {
      StepKeeps(State(), Sweep(now));
      SweepFiles(now);
    }

    /** One upload: however it ends, its room is given back and its file is gone. */
    method FileUpload(u: nat, device: string, declared: Option<nat>, data: seq<bv8>, file: string, answered: bool,
                      now: nat)
      returns (reply: Reply)
      requires Inv(State()) && u !in uploads && file !in issued
      modifies this
      ensures Inv(State()) && u !in uploads && file !in fileStore
      ensures reply == if declared.None? then Failed(411)
                       else if 52_428_800 < declared.value then Failed(413)
                       else if 157_286_400 < old(fileBytes) + declared.value then Failed(507)
                       else if |data| != declared.value then Failed(400)
                       else if !answered then Failed(504) else Saved
      ensures reply in {Saved, Failed(504)} ==> file in received && received[file] == data
    {
      if declared.Some? {
        StepKeeps(State(), Admit(u, device, declared.value));
      }
      var status := AdmitFile(u, device, declared);
      if status != 0 {
        return Failed(status);
      }
      reply := Receive(u, data, file, answered, now);
    }

    /** From the admission on: the body is read, then held until the host has answered. */
    method Receive(u: nat, data: seq<bv8>, file: string, answered: bool, now: nat) returns (reply: Reply)
      requires Inv(State()) && u in uploads && uploads[u].stage.Receiving? && file !in issued
      modifies this
      ensures Inv(State()) && u !in uploads && file !in fileStore
      ensures reply == if |data| != old(uploads)[u].bytes then Failed(400)
                       else if !answered then Failed(504) else Saved
      ensures reply != Failed(400) ==> file in received && received[file] == data
    {
      Others(u, file, now);
      StepKeeps(State(), Body(u, data, file, now));
      var ok := TakeBody(u, data, file, now);
      if ok {
        reply := Wait(u, file, answered, now);
      } else {
        reply := Failed(400);
        StepKeeps(State(), FileRelay.Step.Release(u));
        DropReservation(u);
      }
    }

    /** The host's answer, a timeout, or the sender's disconnection, with the file held meanwhile. */
    method Wait(u: nat, file: string, answered: bool, now: nat) returns (reply: Reply)
      requires Inv(State()) && u in uploads && uploads[u].stage == Holding(file) && file in issued
      modifies this
      ensures Inv(State()) && u !in uploads && file !in fileStore
      ensures file in received && received[file] == old(received)[file]
      ensures reply == if answered then Saved else Failed(504)
    {
      Others(u, file, now);
      DropKeeps(State(), Drop(u));
      DropHeld(u);
      StepKeeps(State(), FileRelay.Step.Release(u));
      DropReservation(u);
      reply := if answered then Saved else Failed(504);
    }
  }
}
