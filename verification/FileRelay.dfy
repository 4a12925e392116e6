/** The relay's memory for files on their way to a host (crates/rdesk_server/src/main.rs): every
    upload reserves its declared size first and gives it back however it ends. */
module FileRelay {
  import opened Wrappers

  const FILE_MAX_BYTES: nat := 50 * 1024 * 1024
  const FILE_STORE_MAX_BYTES: nat := 150 * 1024 * 1024
  const FILE_TTL_MS: nat := 300_000

  /** An upload request: reading its body, waiting for the host with its file held, or past that
      and about to give back its reservation. */
  datatype Stage = Receiving | Holding(file: string) | Ending

  datatype Upload = Upload(device: string, bytes: nat, stage: Stage)

  datatype Blob = Blob(device: string, data: seq<bv8>, created: nat)

  /** A download that passed the ownership check. */
  datatype Clearance = Clearance(file: string, device: string)

  datatype Handed = Handed(file: string, device: string, data: seq<bv8>)

  /** issued maps every file id ever used to the host it was meant for, received to the bytes that came. */
  datatype Relay = Relay(
    fileBytes: nat, uploads: map<nat, Upload>, store: map<string, Blob>, cleared: map<nat, Clearance>,
    handed: seq<Handed>, issued: map<string, string>, received: map<string, seq<bv8>>)

  datatype Step =
    | Admit(u: nat, device: string, size: nat)
    | Body(u: nat, data: seq<bv8>, file: string, now: nat)
    | Drop(u: nat)
    | Release(u: nat)
    | Ask(c: nat, file: string, device: string)
    | Take(c: nat)
    | Sweep(now: nat)

  /** Requests and file ids are new; a request body is read up to its reservation; dropping a request
      removes its held file before its reservation. */
  predicate Enabled(r: Relay, s: Step) {
    match s
    case Admit(u, _, _) => u !in r.uploads
    case Body(u, _, file, _) => u in r.uploads && r.uploads[u].stage.Receiving? && file !in r.issued
    case Drop(u) => u in r.uploads && r.uploads[u].stage.Holding?
    case Release(u) => u in r.uploads && !r.uploads[u].stage.Holding?
    case Ask(c, _, _) => c !in r.cleared
    case Take(c) => c in r.cleared
    case Sweep(_) => true
  }

  predicate Admitted(r: Relay, size: nat) {
    size <= FILE_MAX_BYTES && r.fileBytes + size <= FILE_STORE_MAX_BYTES
  }

  predicate Stale(b: Blob, now: nat) { now > b.created && now - b.created > FILE_TTL_MS }

  function After(r: Relay, s: Step): Relay
    requires Enabled(r, s)
  {
    match s
    case Admit(u, device, size) =>
      if Admitted(r, size) then
        r.(fileBytes := r.fileBytes + size, uploads := r.uploads[u := Upload(device, size, Receiving)])
      else r
    case Body(u, data, file, now) =>
      var p := r.uploads[u];
      if |data| != p.bytes then r.(uploads := r.uploads[u := p.(stage := Ending)])
      else
        r.(uploads := r.uploads[u := p.(stage := Holding(file))], store := r.store[file := Blob(p.device, data, now)],
           issued := r.issued[file := p.device], received := r.received[file := data])
    case Drop(u) =>
      r.(store := r.store - {r.uploads[u].stage.file}, uploads := r.uploads[u := r.uploads[u].(stage := Ending)])
    case Release(u) =>
      r.(fileBytes := if r.fileBytes >= r.uploads[u].bytes then r.fileBytes - r.uploads[u].bytes else 0,
         uploads := r.uploads - {u})
    case Ask(c, file, device) =>
      if file in r.store && r.store[file].device == device then
        r.(cleared := r.cleared[c := Clearance(file, device)])
      else r
    case Take(c) =>
      var h := r.cleared[c];
      var q := r.(cleared := r.cleared - {c});
      if h.file in r.store then
        q.(store := q.store - {h.file}, handed := q.handed + [Handed(h.file, h.device, r.store[h.file].data)])
      else q
    case Sweep(now) => r.(store := map f | f in r.store && !Stale(r.store[f], now) :: r.store[f])
  }

  // ---- Sums over maps ------------------------------------------------------------------------------

  ghost function Sum<K>(m: map<K, nat>): nat
    decreases |m|
  {
    if m == map[] then 0
    else
      var k :| k in m;
      m[k] + Sum(m - {k})
  }

  lemma {:induction false} SumWithout<K>(m: map<K, nat>, k: K)
    requires k in m
    ensures Sum(m) == m[k] + Sum(m - {k})
    decreases |m|
  {
    var j :| j in m && Sum(m) == m[j] + Sum(m - {j});
    if j != k {
      SumWithout(m - {j}, k);
      SumWithout(m - {k}, j);
      assert m - {j} - {k} == m - {k} - {j};
    }
  }

  lemma SumAdd<K>(m: map<K, nat>, k: K, n: nat)
    requires k !in m
    ensures Sum(m[k := n]) == Sum(m) + n
  {
    SumWithout(m[k := n], k);
    assert m[k := n] - {k} == m;
  }

  ghost function Reserved(uploads: map<nat, Upload>): map<nat, nat> {
    map u | u in uploads :: uploads[u].bytes
  }

  ghost function Sizes(store: map<string, Blob>): map<string, nat> {
    map f | f in store :: |store[f].data|
  }

  // ---- The invariant --------------------------------------------------------------------------------

  ghost predicate HoldsFor(uploads: map<nat, Upload>, u: nat, f: string, b: Blob) {
    u in uploads && uploads[u].stage == Holding(f) && uploads[u].device == b.device && uploads[u].bytes == |b.data|
  }

  /** Every held file belongs to one waiting request, of its size and for its host. */
  ghost predicate HeldOk(uploads: map<nat, Upload>, store: map<string, Blob>) {
    && (forall f :: f in store ==> exists u :: HoldsFor(uploads, u, f, store[f]))
    && OneHolder(uploads)
  }

  ghost predicate HandedOk(r: Relay) {
    && (forall u :: u in r.uploads && r.uploads[u].stage.Holding? ==>
          r.uploads[u].stage.file in r.issued && r.issued[r.uploads[u].stage.file] == r.uploads[u].device)
    && (forall f :: f in r.store ==> f in r.issued && r.issued[f] == r.store[f].device)
    && (forall c :: c in r.cleared ==>
         r.cleared[c].file in r.issued && r.issued[r.cleared[c].file] == r.cleared[c].device)
    && (forall h :: h in r.handed ==> h.file in r.issued && h.device == r.issued[h.file] && h.file !in r.store)
    && (forall i, j :: 0 <= i < j < |r.handed| ==> r.handed[i].file != r.handed[j].file)
    && BytesOk(r)
  }

  /** Files are held and handed over as they came. */
  ghost predicate BytesOk(r: Relay) {
    && r.received.Keys == r.issued.Keys
    && (forall f :: f in r.store ==> f in r.received && r.store[f].data == r.received[f])
    && forall h :: h in r.handed ==> h.file in r.received && h.data == r.received[h.file]
  }

  ghost predicate Inv(r: Relay) {
    && r.fileBytes == Sum(Reserved(r.uploads)) <= FILE_STORE_MAX_BYTES
    && (forall u :: u in r.uploads ==> r.uploads[u].bytes <= FILE_MAX_BYTES)
    && HeldOk(r.uploads, r.store)
    && HandedOk(r)
  }

  ghost predicate OneHolder(uploads: map<nat, Upload>) {
    forall u, v :: u in uploads && v in uploads && u != v && uploads[u].stage.Holding? ==>
      uploads[v].stage != uploads[u].stage
  }

  /** Files that stay keep their holder. */
  lemma HeldCarries(a: map<nat, Upload>, sa: map<string, Blob>, b: map<nat, Upload>, sb: map<string, Blob>)
    requires HeldOk(a, sa) && OneHolder(b)
    requires forall f :: f in sb ==> f in sa && sb[f] == sa[f]
    requires forall u :: u in a && a[u].stage.Holding? && a[u].stage.file in sb ==> u in b && b[u] == a[u]
    ensures HeldOk(b, sb)
  {
    forall f | f in sb ensures exists u :: HoldsFor(b, u, f, sb[f]) {
      var u :| HoldsFor(a, u, f, sa[f]);
      assert HoldsFor(b, u, f, sb[f]);
    }
  }

  lemma AdmitReserves(uploads: map<nat, Upload>, u: nat, device: string, size: nat)
    requires u !in uploads
    ensures Sum(Reserved(uploads[u := Upload(device, size, Receiving)])) == Sum(Reserved(uploads)) + size
  {
    assert Reserved(uploads[u := Upload(device, size, Receiving)]) == Reserved(uploads)[u := size];
    SumAdd(Reserved(uploads), u, size);
  }

  lemma AdmitKeeps(r: Relay, s: Step)
    requires Inv(r) && Enabled(r, s) && s.Admit?
    ensures Inv(After(r, s))
  {
    var q := After(r, s);
    if Admitted(r, s.size) {
      AdmitReserves(r.uploads, s.u, s.device, s.size);
      HeldCarries(r.uploads, r.store, q.uploads, q.store);
    }
  }

  lemma WithoutOne(uploads: map<nat, Upload>, store: map<string, Blob>, u: nat)
    requires HeldOk(uploads, store) && u in uploads
    ensures Sum(Reserved(uploads)) == uploads[u].bytes + Sum(Reserved(uploads - {u}))
    ensures var rest := if uploads[u].stage.Holding? then store - {uploads[u].stage.file} else store;
            HeldOk(uploads - {u}, rest)
  {
    SumWithout(Reserved(uploads), u);
    assert Reserved(uploads) - {u} == Reserved(uploads - {u});
    HeldCarries(uploads, store, uploads - {u},
                if uploads[u].stage.Holding? then store - {uploads[u].stage.file} else store);
  }

  lemma ReleaseKeeps(r: Relay, s: Step)
    requires Inv(r) && Enabled(r, s) && s.Release?
    ensures Inv(After(r, s)) && After(r, s).fileBytes == r.fileBytes - r.uploads[s.u].bytes
  {
    WithoutOne(r.uploads, r.store, s.u);
  }

  lemma StageHeld(r: Relay, q: Relay, u: nat)
    requires Inv(r) && u in r.uploads && !(r.uploads[u].stage.Holding? && r.uploads[u].stage.file in q.store)
    requires q.uploads == r.uploads[u := r.uploads[u].(stage := Ending)]
    requires forall f :: f in q.store ==> f in r.store && q.store[f] == r.store[f]
    ensures HeldOk(q.uploads, q.store) && Reserved(q.uploads) == Reserved(r.uploads)
  {
    HeldCarries(r.uploads, r.store, q.uploads, q.store);
  }

  lemma DropKeeps(r: Relay, s: Step)
    requires Inv(r) && Enabled(r, s) && s.Drop?
    ensures Inv(After(r, s)) && r.uploads[s.u].stage.file !in After(r, s).store
  {
    StageHeld(r, After(r, s), s.u);
  }

  lemma BodyHeld(r: Relay, uploads: map<nat, Upload>, u: nat, file: string, b: Blob)
    requires Inv(r) && u in r.uploads && r.uploads[u].stage.Receiving? && file !in r.issued
    requires b.device == r.uploads[u].device && |b.data| == r.uploads[u].bytes
    requires uploads == r.uploads[u := r.uploads[u].(stage := Holding(file))]
    ensures HeldOk(uploads, r.store[file := b]) && Reserved(uploads) == Reserved(r.uploads)
  {
    assert HoldsFor(uploads, u, file, b);
    HeldCarries(r.uploads, r.store, uploads, r.store);
  }

  lemma BodyHanded(r: Relay, q: Relay, u: nat, file: string, b: Blob)
    requires HandedOk(r) && u in r.uploads && file !in r.issued
    requires q.uploads == r.uploads[u := r.uploads[u].(stage := Holding(file))] && q.store == r.store[file := b]
    requires b.device == r.uploads[u].device && q.issued == r.issued[file := b.device]
    requires q.received == r.received[file := b.data]
    requires q.cleared == r.cleared && q.handed == r.handed
    ensures HandedOk(q)
  {
  }

  lemma BodyKeeps(r: Relay, s: Step)
    requires Inv(r) && Enabled(r, s) && s.Body?
    ensures Inv(After(r, s))
  {
    var q := After(r, s);
    if |s.data| != r.uploads[s.u].bytes {
      StageHeld(r, q, s.u);
    } else {
      BodyHeld(r, q.uploads, s.u, s.file, q.store[s.file]);
      BodyHanded(r, q, s.u, s.file, q.store[s.file]);
    }
  }

  lemma FewerFiles(r: Relay, q: Relay)
    requires Inv(r) && q.fileBytes == r.fileBytes && q.uploads == r.uploads && q.issued == r.issued
    requires q.received == r.received
    requires forall f :: f in q.store ==> f in r.store && q.store[f] == r.store[f]
    requires HandedOk(q)
    ensures Inv(q)
  {
    HeldCarries(r.uploads, r.store, q.uploads, q.store);
  }

  lemma AskHanded(r: Relay, s: Step)
    requires HandedOk(r) && Enabled(r, s) && (s.Ask? || s.Sweep?)
    ensures HandedOk(After(r, s))
  {
  }

  lemma TakeHanded(r: Relay, s: Step)
    requires HandedOk(r) && Enabled(r, s) && s.Take?
    ensures HandedOk(After(r, s))
  {
  }

  lemma HandKeeps(r: Relay, s: Step)
    requires Inv(r) && Enabled(r, s) && (s.Ask? || s.Take? || s.Sweep?)
    ensures Inv(After(r, s))
  {
    if s.Take? {
      TakeHanded(r, s);
    } else {
      AskHanded(r, s);
    }
    FewerFiles(r, After(r, s));
  }

  lemma StepKeeps(r: Relay, s: Step)
    requires Inv(r) && Enabled(r, s)
    ensures Inv(After(r, s))
  {
    match s
    case Admit(_, _, _) => AdmitKeeps(r, s);
    case Body(_, _, _, _) => BodyKeeps(r, s);
    case Drop(_) => DropKeeps(r, s);
    case Release(_) => ReleaseKeeps(r, s);
    case _ => HandKeeps(r, s);
  }

  lemma SizesWithout(store: map<string, Blob>, f: string)
    requires f in store
    ensures Sum(Sizes(store)) == |store[f].data| + Sum(Sizes(store - {f}))
  {
    SumWithout(Sizes(store), f);
    assert Sizes(store) - {f} == Sizes(store - {f});
  }

  lemma HolderOf(uploads: map<nat, Upload>, store: map<string, Blob>, f: string) returns (u: nat)
    requires HeldOk(uploads, store) && f in store
    ensures u in uploads && uploads[u].bytes == |store[f].data|
    ensures Sum(Reserved(uploads)) == |store[f].data| + Sum(Reserved(uploads - {u}))
    ensures HeldOk(uploads - {u}, store - {f})
  {
    u :| HoldsFor(uploads, u, f, store[f]);
    WithoutOne(uploads, store, u);
  }

  /** The files held fit in the reservations that brought them. */
  lemma {:induction false} HeldFits(uploads: map<nat, Upload>, store: map<string, Blob>)
    requires HeldOk(uploads, store)
    ensures Sum(Sizes(store)) <= Sum(Reserved(uploads))
    decreases |store|
  {
    if store == map[] {
      assert Sizes(store) == map[];
    } else {
      var f :| f in store;
      SizesWithout(store, f);
      var u := HolderOf(uploads, store, f);
      HeldFits(uploads - {u}, store - {f});
    }
  }

  // ---- Runs ------------------------------------------------------------------------------------------

  const INIT := Relay(0, map[], map[], map[], [], map[], map[])

  ghost predicate Run(r: Relay, steps: seq<Step>)
    decreases |steps|
  {
    steps == [] || (Enabled(r, steps[0]) && Run(After(r, steps[0]), steps[1..]))
  }

  ghost function Final(r: Relay, steps: seq<Step>): Relay
    requires Run(r, steps)
    decreases |steps|
  {
    if steps == [] then r else Final(After(r, steps[0]), steps[1..])
  }

  lemma {:induction false} InvAlong(r: Relay, steps: seq<Step>)
    requires Inv(r) && Run(r, steps)
    ensures Inv(Final(r, steps))
    decreases |steps|
  {
    if steps != [] {
      StepKeeps(r, steps[0]);
      InvAlong(After(r, steps[0]), steps[1..]);
    }
  }

  /** The counter is the sum of the live reservations, never above the cap, and the files held never
      exceed it; with no request left, nothing is counted and nothing is held. */
  lemma MemoryIsConserved(steps: seq<Step>)
    requires Run(INIT, steps)
    ensures var r := Final(INIT, steps);
            r.fileBytes == Sum(Reserved(r.uploads)) && Sum(Sizes(r.store)) <= r.fileBytes <= FILE_STORE_MAX_BYTES
            && (r.uploads == map[] ==> r.fileBytes == 0 && r.store == map[])
  {
    assert Reserved(INIT.uploads) == map[];
    InvAlong(INIT, steps);
    var r := Final(INIT, steps);
    HeldFits(r.uploads, r.store);
    if r.uploads == map[] {
      assert Reserved(r.uploads) == map[];
      assert forall f :: f !in r.store;
    }
  }

  /** Each file is handed over at most once, to the host it was sent for, and is gone from the store
      as soon as it is. */
  lemma HandedOnceToItsHost(steps: seq<Step>, i: nat, j: nat)
    requires Run(INIT, steps) && i < |Final(INIT, steps).handed| && j < |Final(INIT, steps).handed|
    ensures var r := Final(INIT, steps);
            (r.handed[i].file == r.handed[j].file ==> i == j)
            && r.handed[i].file in r.issued && r.issued[r.handed[i].file] == r.handed[i].device
            && r.handed[i].file !in r.store
  {
    assert Reserved(INIT.uploads) == map[];
    InvAlong(INIT, steps);
    assert Final(INIT, steps).handed[i] in Final(INIT, steps).handed;
  }

  // ---- What is handed over is what was sent ----------------------------------------------------------

  /** Step i took the whole body of the upload admitted by step a: these bytes, for this host, under this file id. */
  ghost predicate Brought(past: seq<Step>, a: int, i: int, file: string, device: string, data: seq<bv8>) {
    0 <= a < i < |past| && past[i].Body? && past[i].file == file && past[i].data == data
    && past[a] == Admit(past[i].u, device, |data|)
  }

  ghost predicate WasBrought(past: seq<Step>, file: string, device: string, data: seq<bv8>) {
    exists a, i :: Brought(past, a, i, file, device, data)
  }

  ghost predicate WasAdmitted(past: seq<Step>, u: nat, device: string, bytes: nat) {
    exists a :: 0 <= a < |past| && past[a] == Admit(u, device, bytes)
  }

  ghost predicate Traced(past: seq<Step>, r: Relay) {
    && (forall u :: u in r.uploads ==> WasAdmitted(past, u, r.uploads[u].device, r.uploads[u].bytes))
    && (forall f :: f in r.store ==> WasBrought(past, f, r.store[f].device, r.store[f].data))
    && forall h :: h in r.handed ==> WasBrought(past, h.file, h.device, h.data)
  }

  lemma AdmittedLater(past: seq<Step>, s: Step, u: nat, device: string, bytes: nat)
    requires WasAdmitted(past, u, device, bytes)
    ensures WasAdmitted(past + [s], u, device, bytes)
  {
    var a :| 0 <= a < |past| && past[a] == Admit(u, device, bytes);
    assert (past + [s])[a] == past[a];
  }

  lemma BroughtLater(past: seq<Step>, s: Step, file: string, device: string, data: seq<bv8>)
    requires WasBrought(past, file, device, data)
    ensures WasBrought(past + [s], file, device, data)
  {
    var a, i :| Brought(past, a, i, file, device, data);
    assert Brought(past + [s], a, i, file, device, data);
  }

  lemma BodyBrings(past: seq<Step>, s: Step, device: string)
    requires s.Body? && WasAdmitted(past, s.u, device, |s.data|)
    ensures WasBrought(past + [s], s.file, device, s.data)
  {
    var a :| 0 <= a < |past| && past[a] == Admit(s.u, device, |s.data|);
    assert (past + [s])[a] == past[a] && (past + [s])[|past|] == s;
    assert Brought(past + [s], a, |past|, s.file, device, s.data);
  }

  /** A step leaves, or brings itself, what is admitted, held and handed over. */
  lemma StepTraces(past: seq<Step>, s: Step, r: Relay, q: Relay)
    requires Traced(past, r)
    requires forall u :: u in q.uploads ==>
               (u in r.uploads && q.uploads[u].device == r.uploads[u].device
                && q.uploads[u].bytes == r.uploads[u].bytes)
               || s == Admit(u, q.uploads[u].device, q.uploads[u].bytes)
    requires forall f :: f in q.store ==>
               (f in r.store && q.store[f] == r.store[f])
               || WasBrought(past + [s], f, q.store[f].device, q.store[f].data)
    requires forall h :: h in q.handed ==> h in r.handed || WasBrought(past, h.file, h.device, h.data)
    ensures Traced(past + [s], q)
  {
    forall u | u in q.uploads
      ensures WasAdmitted(past + [s], u, q.uploads[u].device, q.uploads[u].bytes)
    {
      if s == Admit(u, q.uploads[u].device, q.uploads[u].bytes) {
        assert (past + [s])[|past|] == s;
      } else {
        AdmittedLater(past, s, u, r.uploads[u].device, r.uploads[u].bytes);
      }
    }
    forall f | f in q.store
      ensures WasBrought(past + [s], f, q.store[f].device, q.store[f].data)
    {
      if f in r.store && q.store[f] == r.store[f] {
        BroughtLater(past, s, f, r.store[f].device, r.store[f].data);
      }
    }
    forall h | h in q.handed
      ensures WasBrought(past + [s], h.file, h.device, h.data)
    {
      BroughtLater(past, s, h.file, h.device, h.data);
    }
  }

  lemma BodyTraces(past: seq<Step>, r: Relay, s: Step)
    requires Traced(past, r) && Enabled(r, s) && s.Body?
    ensures Traced(past + [s], After(r, s))
  {
    if |s.data| == r.uploads[s.u].bytes {
      BodyBrings(past, s, r.uploads[s.u].device);
    }
    StepTraces(past, s, r, After(r, s));
  }

  lemma TakeTraces(past: seq<Step>, r: Relay, s: Step)
    requires HandedOk(r) && Traced(past, r) && Enabled(r, s) && s.Take?
    ensures Traced(past + [s], After(r, s))
  {
    var c := r.cleared[s.c];
    if c.file in r.store {
      assert r.store[c.file].device == c.device;
      assert WasBrought(past, c.file, c.device, r.store[c.file].data);
    }
    StepTraces(past, s, r, After(r, s));
  }

  lemma OthersTrace(past: seq<Step>, r: Relay, s: Step)
    requires Traced(past, r) && Enabled(r, s) && !s.Body? && !s.Take?
    ensures Traced(past + [s], After(r, s))
  {
    StepTraces(past, s, r, After(r, s));
  }

  lemma TracedStep(past: seq<Step>, r: Relay, s: Step)
    requires Inv(r) && Traced(past, r) && Enabled(r, s)
    ensures Traced(past + [s], After(r, s))
  {
    if s.Body? {
      BodyTraces(past, r, s);
    } else if s.Take? {
      TakeTraces(past, r, s);
    } else {
      OthersTrace(past, r, s);
    }
  }

  lemma {:induction false} TracedAlong(past: seq<Step>, r: Relay, steps: seq<Step>)
    requires Inv(r) && Traced(past, r) && Run(r, steps)
    ensures Traced(past + steps, Final(r, steps))
    decreases |steps|
  {
    if steps == [] {
      assert past + steps == past;
    } else {
      StepKeeps(r, steps[0]);
      TracedStep(past, r, steps[0]);
      TracedAlong(past + [steps[0]], After(r, steps[0]), steps[1..]);
      assert past + [steps[0]] + steps[1..] == past + steps;
    }
  }

  /** Whatever a host is handed in a run, it is byte for byte the body of one upload that was admitted for
      that host under exactly that size; and so is every file still held. */
  lemma HandedAsSent(steps: seq<Step>)
    requires Run(INIT, steps)
    ensures var r := Final(INIT, steps);
            && (forall h :: h in r.handed ==> WasBrought(steps, h.file, h.device, h.data))
            && forall f :: f in r.store ==> WasBrought(steps, f, r.store[f].device, r.store[f].data)
  {
    assert Reserved(INIT.uploads) == map[];
    TracedAlong([], INIT, steps);
    assert [] + steps == steps;
  }

  lemma GoneStep(r: Relay, s: Step, f: string)
    requires Inv(r) && Enabled(r, s) && f in r.issued && f !in r.store
    ensures f in After(r, s).issued && f !in After(r, s).store
  {
  }

  lemma {:induction false} GoneForGood(r: Relay, steps: seq<Step>, f: string)
    requires Inv(r) && Run(r, steps) && f in r.issued && f !in r.store
    ensures f !in Final(r, steps).store
    decreases |steps|
  {
    if steps != [] {
      GoneStep(r, steps[0], f);
      StepKeeps(r, steps[0]);
      GoneForGood(After(r, steps[0]), steps[1..], f);
    }
  }

  /** Once a request has ended, however it did, its file is not in the store, then or later. */
  lemma NothingOutlivesItsRequest(r: Relay, u: nat, steps: seq<Step>)
    requires Inv(r) && u in r.uploads && r.uploads[u].stage.Holding?
    requires Run(After(r, Drop(u)), steps)
    ensures r.uploads[u].stage.file !in Final(After(r, Drop(u)), steps).store
  {
    DropKeeps(r, Drop(u));
    GoneForGood(After(r, Drop(u)), steps, r.uploads[u].stage.file);
  }
}
