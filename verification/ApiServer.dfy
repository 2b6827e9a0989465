/** The API server as a linearizable store. Before each operator call any number of writes by others may happen;
    the call itself is served, refused, or served with its reply lost. */
module ApiServer {
  import opened Cluster

  datatype Foreign =
    | Put(key: Key, obj: Obj)
    | Remove(key: Key)
    | Touch(key: Key, replicas: int, current: string, target: string)
    | EditSpec(spec: DruidSpec)
    | RequestDeletion
    | SetFinalizers(finalizers: seq<string>)

  datatype Fault = NoFault | Refused | LostReply

  /** One operator call's surroundings: the other writers' steps before it, its fate, the order in which a list call
      enumerates, and the address the server allocates to a created service. */
  datatype Tick = Tick(writes: seq<Foreign>, fault: Fault, listing: seq<Key>, ip: string)

  type Env = nat -> Tick

  datatype Reply = Found(obj: Obj) | NotFound | Broken

  datatype Event =
    | Got(key: Key, reply: Reply)
    | Checked(key: Key, reply: Reply)
    | Created(key: Key, content: Content, ok: bool)
    | Updated(key: Key, content: Content, ok: bool)
    | Deleted(key: Key, ok: bool)
    | Listed(kind: Kind, items: seq<Key>, ok: bool)
    | CrGot(ok: bool)
    | CrUpdated(finalizers: seq<string>, ok: bool)
    | StatusPatched(ok: bool)

  /** An operator call and the stored objects right after it. */
  datatype Entry = Entry(event: Event, after: map<Key, Obj>)

  datatype World = World(cr: Option<Cr>, objs: map<Key, Obj>, version: nat, tick: nat, log: seq<Entry>)

  // ---------- other writers ----------

  function Apply(w: World, f: Foreign): World {
    var v := w.version + 1;
    match f
    case Put(k, o) => w.(objs := w.objs[k := o.(version := v)], version := v)
    case Remove(k) => w.(objs := w.objs - {k}, version := v)
    case Touch(k, r, c, t) =>
      if k in w.objs then
        w.(objs := w.objs[k := w.objs[k].(version := v, replicas := r, current := c, target := t)], version := v)
      else w
    case EditSpec(s) =>
      if w.cr.Some? then
        w.(cr := Some(w.cr.value.(spec := s, generation := w.cr.value.generation + 1, version := v)), version := v)
      else w
    case RequestDeletion =>
      if w.cr.None? then w
      else if w.cr.value.finalizers == [] then w.(cr := None)
      else w.(cr := Some(w.cr.value.(deleting := true, version := v)), version := v)
    case SetFinalizers(fs) =>
      if w.cr.None? then w
      else WriteFinalizers(w, fs)
  }

  /** The server's rule for a write of the finalizer list: no finalizer may be added once deletion is requested, and
      a resource whose deletion is requested goes away with its last finalizer. */
  function WriteFinalizers(w: World, fs: seq<string>): World
    requires w.cr.Some?
  {
    var cr := w.cr.value;
    if cr.deleting && exists i | 0 <= i < |fs| :: fs[i] !in cr.finalizers then w
    else if cr.deleting && fs == [] then w.(cr := None)
    else w.(cr := Some(cr.(finalizers := fs, version := w.version + 1)), version := w.version + 1)
  }

  function ApplyAll(w: World, fs: seq<Foreign>): World
    decreases |fs|
  {
    if fs == [] then w else ApplyAll(Apply(w, fs[0]), fs[1..])
  }

  /** The world in which the next operator call is executed. */
  function Arrive(env: Env, w: World): World {
    ApplyAll(w, env(w.tick).writes).(tick := w.tick + 1)
  }

  function Log(w: World, e: Event): World {
    w.(log := w.log + [Entry(e, w.objs)])
  }

  // ---------- the operator's calls ----------

  function Fetch(env: Env, w: World, key: Key): (World, Reply) {
    var v := Arrive(env, w);
    (v, if env(w.tick).fault != NoFault then Broken
        else if key in v.objs then Found(v.objs[key])
        else NotFound)
  }

  function Written(c: Content, hash: string, version: nat, ip: string, current: string, target: string): Obj {
    Obj(version, c.labels, hash, c.body, ip, ReplicasOf(c.body), current, target)
  }

  /** Create: fails on an existing name. */
  function Create(env: Env, w: World, c: Content, hash: string): (World, bool) {
    var v := Arrive(env, w);
    var t := env(w.tick);
    if t.fault.Refused? || c.key in v.objs then (Log(v, Created(c.key, c, false)), false)
    else
      var o := Written(c, hash, v.version + 1, if c.key.kind.Service? then t.ip else "", "", "");
      (Log(v.(objs := v.objs[c.key := o], version := v.version + 1), Created(c.key, c, t.fault.NoFault?)),
       t.fault.NoFault?)
  }

  /** Update: a compare-and-swap on the resource version. The status fields are not part of the write. */
  function Update(env: Env, w: World, c: Content, hash: string, base: nat, ip: string): (World, bool) {
    var v := Arrive(env, w);
    var t := env(w.tick);
    if t.fault.Refused? || c.key !in v.objs || v.objs[c.key].version != base then
      (Log(v, Updated(c.key, c, false)), false)
    else
      var o := Written(c, hash, v.version + 1, ip, v.objs[c.key].current, v.objs[c.key].target);
      (Log(v.(objs := v.objs[c.key := o], version := v.version + 1), Updated(c.key, c, t.fault.NoFault?)),
       t.fault.NoFault?)
  }

  function Delete(env: Env, w: World, key: Key): (World, bool) {
    var v := Arrive(env, w);
    var t := env(w.tick);
    if t.fault.Refused? || key !in v.objs then (Log(v, Deleted(key, false)), false)
    else
      (Log(v.(objs := v.objs - {key}, version := v.version + 1), Deleted(key, t.fault.NoFault?)), t.fault.NoFault?)
  }

  predicate Matches(objs: map<Key, Obj>, k: Key, kind: Kind, ns: string, sel: Labels) {
    k in objs && k.kind == kind && k.ns == ns && Selects(sel, objs[k].labels)
  }

  /** `ks` enumerates, without repetition and in some order, the objects a list call selects. */
  predicate Enumerates(ks: seq<Key>, objs: map<Key, Obj>, kind: Kind, ns: string, sel: Labels) {
    && (forall i, j :: 0 <= i < j < |ks| ==> ks[i] != ks[j])
    && (forall k :: k in ks ==> Matches(objs, k, kind, ns, sel))
    && (forall k :: k in objs ==> Matches(objs, k, kind, ns, sel) ==> k in ks)
  }

  /** List: answers with the enumeration the surroundings chose. */
  function List(env: Env, w: World, kind: Kind, ns: string, sel: Labels): (World, Option<seq<Key>>) {
    var v := Arrive(env, w);
    var t := env(w.tick);
    if t.fault.NoFault? && Enumerates(t.listing, v.objs, kind, ns, sel) then
      (Log(v, Listed(kind, t.listing, true)), Some(t.listing))
    else
      (Log(v, Listed(kind, [], false)), None)
  }

  function FetchCr(env: Env, w: World): (World, Option<Cr>, bool) {
    var v := Arrive(env, w);
    var ok := env(w.tick).fault.NoFault?;
    (Log(v, CrGot(ok)), if ok then v.cr else None, ok)
  }

  /** Writes the finalizer list read with `base`. */
  function UpdateCr(env: Env, w: World, base: Cr, fs: seq<string>): (World, bool) {
    var v := Arrive(env, w);
    var t := env(w.tick);
    if t.fault.Refused? || v.cr.None? || v.cr.value.version != base.version || WriteFinalizers(v, fs) == v then
      (Log(v, CrUpdated(fs, false)), false)
    else
      (Log(WriteFinalizers(v, fs), CrUpdated(fs, t.fault.NoFault?)), t.fault.NoFault?)
  }
}
