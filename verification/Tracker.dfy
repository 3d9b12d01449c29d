/**
  The entity tracker (session/tracker.go): five sets that shadow what the client has been
  shown, so that a transfer can remove all of it.

  `Track` is what the proxy records for a forwarded packet and `Show`, defined on its own, is what
  the client does with it. The two differ: the tracker ignores whom an effect is for and never forgets a boss
  bar. The theorems say when clearing the tracker nevertheless empties the client.
 */
module Tracker {
  type Uuid = seq<int>

  datatype EffectOp = EffectAdd | EffectModify | EffectRemove
  datatype BossOp = BossShow | BossHide | BossUpdate

  datatype GamePacket =
    | AddActor(id: int)
    | AddItemActor(id: int)
    | AddPainting(id: int)
    | AddPlayer(id: int)
    | BossEvent(boss: int, bossOp: BossOp)
    | MobEffect(entity: nat, effect: int, effectOp: EffectOp)
    | PlayerList(add: bool, uuids: seq<Uuid>)
    | RemoveActor(id: int)
    | RemoveObjective(name: string)
    | SetDisplayObjective(name: string)
    | OtherGame(kind: nat)

  datatype Scene = Scene(
    bossBars: set<int>,
    effects: set<int>,
    entities: set<int>,
    players: set<Uuid>,
    scoreboards: set<string>
  )

  const EMPTY: Scene := Scene({}, {}, {}, {}, {})

  function Elements<T>(xs: seq<T>): set<T> {
    set x | x in xs
  }

  /** `tracker.handlePacket` */
  function Track(s: Scene, pk: GamePacket): Scene {
    match pk
    case AddActor(id) => s.(entities := s.entities + {id})
    case AddItemActor(id) => s.(entities := s.entities + {id})
    case AddPainting(id) => s.(entities := s.entities + {id})
    case AddPlayer(id) => s.(entities := s.entities + {id})
    case BossEvent(b, _) => s.(bossBars := s.bossBars + {b})
    case MobEffect(_, e, EffectAdd) => s.(effects := s.effects + {e})
    case MobEffect(_, e, EffectRemove) => s.(effects := s.effects - {e})
    case MobEffect(_, _, EffectModify) => s
    case PlayerList(true, us) => s.(players := s.players + Elements(us))
    case PlayerList(false, us) => s.(players := s.players - Elements(us))
    case RemoveActor(id) => s.(entities := s.entities - {id})
    case RemoveObjective(n) => s.(scoreboards := s.scoreboards - {n})
    case SetDisplayObjective(n) => s.(scoreboards := s.scoreboards + {n})
    case OtherGame(_) => s
  }

  /** What the packet does to the client whose own runtime ID is `local`. */
  function Show(local: nat, v: Scene, pk: GamePacket): Scene {
    match pk
    case BossEvent(b, BossShow) => v.(bossBars := v.bossBars + {b})
    case BossEvent(b, BossHide) => v.(bossBars := v.bossBars - {b})
    case BossEvent(_, BossUpdate) => v
    case MobEffect(who, e, op) =>
      if who != local || op.EffectModify? then v
      else if op.EffectAdd? then v.(effects := v.effects + {e})
      else v.(effects := v.effects - {e})
    case AddActor(id) => v.(entities := v.entities + {id})
    case AddItemActor(id) => v.(entities := v.entities + {id})
    case AddPainting(id) => v.(entities := v.entities + {id})
    case AddPlayer(id) => v.(entities := v.entities + {id})
    case RemoveActor(id) => v.(entities := v.entities - {id})
    case PlayerList(add, us) =>
      if add then v.(players := v.players + Elements(us)) else v.(players := v.players - Elements(us))
    case SetDisplayObjective(n) => v.(scoreboards := v.scoreboards + {n})
    case RemoveObjective(n) => v.(scoreboards := v.scoreboards - {n})
    case OtherGame(_) => v
  }

  function TrackAll(s: Scene, pks: seq<GamePacket>): Scene
    decreases |pks|
  {
    if pks == [] then s else TrackAll(Track(s, pks[0]), pks[1..])
  }

  function ShowAll(local: nat, v: Scene, pks: seq<GamePacket>): Scene
    decreases |pks|
  {
    if pks == [] then v else ShowAll(local, Show(local, v, pks[0]), pks[1..])
  }

  /** The order in which each set happens to be iterated; Go leaves it open. */
  datatype ClearOrder = ClearOrder(
    effects: seq<int>, entities: seq<int>, bossBars: seq<int>, players: seq<Uuid>, scoreboards: seq<string>)

  predicate Enumerates<T(==)>(xs: seq<T>, s: set<T>) {
    Elements(xs) == s && forall i, j :: 0 <= i < j < |xs| ==> xs[i] != xs[j]
  }

  predicate Orders(o: ClearOrder, s: Scene) {
    && Enumerates(o.effects, s.effects) && Enumerates(o.entities, s.entities)
    && Enumerates(o.bossBars, s.bossBars) && Enumerates(o.players, s.players)
    && Enumerates(o.scoreboards, s.scoreboards)
  }

  function Map<A, B>(f: A -> B, xs: seq<A>): (ys: seq<B>)
    ensures |ys| == |xs| && forall i :: 0 <= i < |xs| ==> ys[i] == f(xs[i])
  {
    seq(|xs|, i requires 0 <= i < |xs| => f(xs[i]))
  }

  function HideBoss(b: int): GamePacket { BossEvent(b, BossHide) }
  function DropEffect(local: nat, e: int): GamePacket { MobEffect(local, e, EffectRemove) }

  /** The packets of the five `clear*` calls in the order `sendGameData` makes them. */
  function ClearPackets(local: nat, o: ClearOrder): seq<GamePacket> {
    Map(e => DropEffect(local, e), o.effects)
    + Map(id => RemoveActor(id), o.entities)
    + Map(b => HideBoss(b), o.bossBars)
    + [PlayerList(false, o.players)]
    + Map(n => RemoveObjective(n), o.scoreboards)
  }

  /** The shadow accounts for everything the client shows. Boss bars and effects may be over-counted. */
  ghost predicate Covers(s: Scene, v: Scene) {
    && v.bossBars <= s.bossBars && v.effects <= s.effects
    && v.entities == s.entities && v.players == s.players && v.scoreboards == s.scoreboards
  }

  lemma {:induction false} ShowAllAppend(local: nat, v: Scene, xs: seq<GamePacket>, ys: seq<GamePacket>)
    ensures ShowAll(local, v, xs + ys) == ShowAll(local, ShowAll(local, v, xs), ys)
    decreases |xs|
  {
    if xs == [] {
      assert xs + ys == ys;
    } else {
      assert (xs + ys)[1..] == xs[1..] + ys;
      ShowAllAppend(local, Show(local, v, xs[0]), xs[1..], ys);
    }
  }

  lemma {:induction false} TrackAllAppend(s: Scene, xs: seq<GamePacket>, ys: seq<GamePacket>)
    ensures TrackAll(s, xs + ys) == TrackAll(TrackAll(s, xs), ys)
    decreases |xs|
  {
    if xs == [] {
      assert xs + ys == ys;
    } else {
      assert (xs + ys)[1..] == xs[1..] + ys;
      TrackAllAppend(Track(s, xs[0]), xs[1..], ys);
    }
  }

  lemma {:induction false} ShowDropEffects(local: nat, v: Scene, es: seq<int>)
    ensures ShowAll(local, v, Map(e => DropEffect(local, e), es)) == v.(effects := v.effects - Elements(es))
    decreases |es|
  {
    if es != [] {
      assert Map(e => DropEffect(local, e), es)[1..] == Map(e => DropEffect(local, e), es[1..]);
      ShowDropEffects(local, v.(effects := v.effects - {es[0]}), es[1..]);
      assert v.effects - {es[0]} - Elements(es[1..]) == v.effects - Elements(es);
    } else {
      assert v.effects - Elements(es) == v.effects;
    }
  }

  lemma {:induction false} ShowRemoveActors(local: nat, v: Scene, ids: seq<int>)
    ensures ShowAll(local, v, Map(id => RemoveActor(id), ids)) == v.(entities := v.entities - Elements(ids))
    decreases |ids|
  {
    if ids != [] {
      assert Map(id => RemoveActor(id), ids)[1..] == Map(id => RemoveActor(id), ids[1..]);
      ShowRemoveActors(local, v.(entities := v.entities - {ids[0]}), ids[1..]);
      assert v.entities - {ids[0]} - Elements(ids[1..]) == v.entities - Elements(ids);
    } else {
      assert v.entities - Elements(ids) == v.entities;
    }
  }

  lemma {:induction false} ShowHideBosses(local: nat, v: Scene, bs: seq<int>)
    ensures ShowAll(local, v, Map(b => HideBoss(b), bs)) == v.(bossBars := v.bossBars - Elements(bs))
    decreases |bs|
  {
    if bs != [] {
      assert Map(b => HideBoss(b), bs)[1..] == Map(b => HideBoss(b), bs[1..]);
      ShowHideBosses(local, v.(bossBars := v.bossBars - {bs[0]}), bs[1..]);
      assert v.bossBars - {bs[0]} - Elements(bs[1..]) == v.bossBars - Elements(bs);
    } else {
      assert v.bossBars - Elements(bs) == v.bossBars;
    }
  }

  lemma {:induction false} ShowRemoveObjectives(local: nat, v: Scene, ns: seq<string>)
    ensures ShowAll(local, v, Map(n => RemoveObjective(n), ns)) == v.(scoreboards := v.scoreboards - Elements(ns))
    decreases |ns|
  {
    if ns != [] {
      assert Map(n => RemoveObjective(n), ns)[1..] == Map(n => RemoveObjective(n), ns[1..]);
      ShowRemoveObjectives(local, v.(scoreboards := v.scoreboards - {ns[0]}), ns[1..]);
      assert v.scoreboards - {ns[0]} - Elements(ns[1..]) == v.scoreboards - Elements(ns);
    } else {
      assert v.scoreboards - Elements(ns) == v.scoreboards;
    }
  }

  /** What of `v` is not accounted for by `s`. */
  function Without(v: Scene, s: Scene): Scene {
    Scene(v.bossBars - s.bossBars, v.effects - s.effects, v.entities - s.entities, v.players - s.players,
          v.scoreboards - s.scoreboards)
  }

  /** Clearing removes from the client exactly what the shadow holds, whatever order the sets are iterated in. */
  lemma ClearRemoves(local: nat, s: Scene, v: Scene, o: ClearOrder)
    requires Orders(o, s)
    ensures ShowAll(local, v, ClearPackets(local, o)) == Without(v, s)
  {
    var a := Map(e => DropEffect(local, e), o.effects);
    var b := Map(id => RemoveActor(id), o.entities);
    var c := Map(x => HideBoss(x), o.bossBars);
    var d := [PlayerList(false, o.players)];
    var e := Map(n => RemoveObjective(n), o.scoreboards);
    ShowAllAppend(local, v, a + b + c + d, e);
    ShowAllAppend(local, v, a + b + c, d);
    ShowAllAppend(local, v, a + b, c);
    ShowAllAppend(local, v, a, b);
    var v1 := v.(effects := v.effects - Elements(o.effects));
    var v2 := v1.(entities := v1.entities - Elements(o.entities));
    var v3 := v2.(bossBars := v2.bossBars - Elements(o.bossBars));
    var v4 := v3.(players := v3.players - Elements(o.players));
    ShowDropEffects(local, v, o.effects);
    ShowRemoveActors(local, v1, o.entities);
    ShowHideBosses(local, v2, o.bossBars);
    assert ShowAll(local, v3, d) == ShowAll(local, v4, []);
    ShowRemoveObjectives(local, v4, o.scoreboards);
  }

  /** So clearing a shadow that covers the client empties the client. */
  lemma ClearEmpties(local: nat, s: Scene, v: Scene, o: ClearOrder)
    requires Covers(s, v) && Orders(o, s)
    ensures ShowAll(local, v, ClearPackets(local, o)) == EMPTY
  {
    ClearRemoves(local, s, v, o);
  }

  lemma FoldLast(local: nat, h: seq<GamePacket>, k: nat)
    requires k < |h|
    ensures TrackAll(EMPTY, h[..k + 1]) == Track(TrackAll(EMPTY, h[..k]), h[k])
    ensures ShowAll(local, EMPTY, h[..k + 1]) == Show(local, ShowAll(local, EMPTY, h[..k]), h[k])
  {
    assert h[..k + 1] == h[..k] + [h[k]];
    TrackAllAppend(EMPTY, h[..k], [h[k]]);
    ShowAllAppend(local, EMPTY, h[..k], [h[k]]);
  }

  // ---- what is tracked and what is shown, from the history alone --------------------------

  datatype Thing = Bar(boss: int) | Effect(effect: int) | Entity(id: int) | Player(uuid: Uuid) | Board(name: string)

  predicate Holds(s: Scene, x: Thing) {
    match x
    case Bar(b) => b in s.bossBars
    case Effect(e) => e in s.effects
    case Entity(id) => id in s.entities
    case Player(u) => u in s.players
    case Board(n) => n in s.scoreboards
  }

  /** The packet announces the thing; a boss bar is announced by every event about it. */
  predicate Announces(pk: GamePacket, x: Thing) {
    match x
    case Bar(b) => pk.BossEvent? && pk.boss == b
    case Effect(e) => pk.MobEffect? && pk.effectOp.EffectAdd? && pk.effect == e
    case Entity(id) => (pk.AddActor? || pk.AddItemActor? || pk.AddPainting? || pk.AddPlayer?) && pk.id == id
    case Player(u) => pk.PlayerList? && pk.add && u in pk.uuids
    case Board(n) => pk.SetDisplayObjective? && pk.name == n
  }

  /** The packet withdraws the thing; nothing withdraws a boss bar from the tracker. */
  predicate Withdraws(pk: GamePacket, x: Thing) {
    match x
    case Bar(_) => false
    case Effect(e) => pk.MobEffect? && pk.effectOp.EffectRemove? && pk.effect == e
    case Entity(id) => pk.RemoveActor? && pk.id == id
    case Player(u) => pk.PlayerList? && !pk.add && u in pk.uuids
    case Board(n) => pk.RemoveObjective? && pk.name == n
  }

  /** The client tells the two kinds of boss event apart, and minds whom an effect is for. */
  predicate Concerns(local: nat, pk: GamePacket) {
    pk.MobEffect? ==> pk.entity == local
  }

  predicate Appears(local: nat, pk: GamePacket, x: Thing) {
    Announces(pk, x) && Concerns(local, pk) && (pk.BossEvent? ==> pk.bossOp.BossShow?)
  }

  predicate Vanishes(local: nat, pk: GamePacket, x: Thing) {
    (Withdraws(pk, x) && Concerns(local, pk)) || (x.Bar? && pk.BossEvent? && pk.bossOp.BossHide? && pk.boss == x.boss)
  }

  /** Some packet announces and no later one withdraws. */
  ghost predicate Standing(h: seq<GamePacket>, announces: GamePacket -> bool, withdraws: GamePacket -> bool) {
    exists k: nat :: k < |h| && announces(h[k]) && forall j :: k < j < |h| ==> !withdraws(h[j])
  }

  lemma StandingSnoc(h: seq<GamePacket>, pk: GamePacket, announces: GamePacket -> bool, withdraws: GamePacket -> bool)
    ensures Standing(h + [pk], announces, withdraws) <==>
            announces(pk) || (Standing(h, announces, withdraws) && !withdraws(pk))
  {
    var all := h + [pk];
    assert all[|h|] == pk && forall k: nat :: k < |h| ==> all[k] == h[k];
    if Standing(h, announces, withdraws) && !withdraws(pk) {
      var k: nat :| k < |h| && announces(h[k]) && forall j :: k < j < |h| ==> !withdraws(h[j]);
      assert announces(all[k]) && forall j :: k < j < |all| ==> !withdraws(all[j]);
    }
    if announces(pk) {
      assert announces(all[|h|]);
    }
  }

  lemma TrackOneThing(s: Scene, pk: GamePacket, x: Thing)
    ensures Holds(Track(s, pk), x) <==> Announces(pk, x) || (Holds(s, x) && !Withdraws(pk, x))
  {
  }

  /** The tracker holds a thing if and only if its last announcement has not been withdrawn. */
  lemma {:induction false} TrackedIff(h: seq<GamePacket>, x: Thing)
    ensures Holds(TrackAll(EMPTY, h), x) <==> Standing(h, pk => Announces(pk, x), pk => Withdraws(pk, x))
    decreases |h|
  {
    if h != [] {
      var init, pk := h[..|h| - 1], h[|h| - 1];
      assert h == init + [pk] && h[..|h|] == h;
      TrackedIff(init, x);
      StandingSnoc(init, pk, p => Announces(p, x), p => Withdraws(p, x));
      FoldLast(0, h, |h| - 1);
      TrackOneThing(TrackAll(EMPTY, init), pk, x);
    }
  }

  lemma ShowOneThing(local: nat, v: Scene, pk: GamePacket, x: Thing)
    ensures Holds(Show(local, v, pk), x) <==> Appears(local, pk, x) || (Holds(v, x) && !Vanishes(local, pk, x))
  {
  }

  /** The client shows a thing if and only if it last appeared without vanishing since. */
  lemma {:induction false} ShownIff(local: nat, h: seq<GamePacket>, x: Thing)
    ensures Holds(ShowAll(local, EMPTY, h), x) <==> Standing(h, pk => Appears(local, pk, x), pk => Vanishes(local, pk, x))
    decreases |h|
  {
    if h != [] {
      var init, pk := h[..|h| - 1], h[|h| - 1];
      assert h == init + [pk] && h[..|h|] == h;
      ShownIff(local, init, x);
      StandingSnoc(init, pk, p => Appears(local, p, x), p => Vanishes(local, p, x));
      FoldLast(local, h, |h| - 1);
      ShowOneThing(local, ShowAll(local, EMPTY, init), pk, x);
    }
  }

  // ---- when the tracker covers the client -------------------------------------------------

  /** Someone else loses an effect the player still has: the tracker cannot tell the two apart. */
  ghost predicate ForeignRemoval(local: nat, h: seq<GamePacket>, k: nat)
    requires k < |h|
  {
    && h[k].MobEffect? && h[k].effectOp.EffectRemove? && h[k].entity != local
    && h[k].effect in ShowAll(local, EMPTY, h[..k]).effects
  }

  lemma CoversStep(local: nat, s: Scene, v: Scene, pk: GamePacket)
    requires Covers(s, v)
    ensures Covers(Track(s, pk), Show(local, v, pk)) <==>
            !(pk.MobEffect? && pk.effectOp.EffectRemove? && pk.entity != local && pk.effect in v.effects)
  {
  }

  lemma {:induction false} CoversWithoutForeignRemoval(local: nat, h: seq<GamePacket>, k: nat)
    requires k <= |h|
    requires forall i: nat :: i < |h| ==> !ForeignRemoval(local, h, i)
    ensures Covers(TrackAll(EMPTY, h[..k]), ShowAll(local, EMPTY, h[..k]))
  {
    if k > 0 {
      CoversWithoutForeignRemoval(local, h, k - 1);
      FoldLast(local, h, k - 1);
      assert !ForeignRemoval(local, h, k - 1);
      CoversStep(local, TrackAll(EMPTY, h[..k - 1]), ShowAll(local, EMPTY, h[..k - 1]), h[k - 1]);
    }
  }

  /**
    Throughout a history of forwarded packets the tracker covers the client if and only if the
    history has no removal, from another entity, of an effect the player has at that moment.
   */
  lemma CoversIff(local: nat, h: seq<GamePacket>)
    ensures (forall k: nat :: k <= |h| ==> Covers(TrackAll(EMPTY, h[..k]), ShowAll(local, EMPTY, h[..k])))
        <==> (forall i: nat :: i < |h| ==> !ForeignRemoval(local, h, i))
  {
    if forall i: nat :: i < |h| ==> !ForeignRemoval(local, h, i) {
      forall k: nat | k <= |h| ensures Covers(TrackAll(EMPTY, h[..k]), ShowAll(local, EMPTY, h[..k])) {
        CoversWithoutForeignRemoval(local, h, k);
      }
    } else {
      var i: nat :| i < |h| && ForeignRemoval(local, h, i);
      if Covers(TrackAll(EMPTY, h[..i]), ShowAll(local, EMPTY, h[..i])) {
        FoldLast(local, h, i);
        CoversStep(local, TrackAll(EMPTY, h[..i]), ShowAll(local, EMPTY, h[..i]), h[i]);
        assert !Covers(TrackAll(EMPTY, h[..i + 1]), ShowAll(local, EMPTY, h[..i + 1]));
      }
    }
  }

  lemma NothingListed<T>(xs: seq<T>)
    ensures Elements(xs) == {} <==> xs == []
  {
    assert xs != [] ==> xs[0] in Elements(xs);
  }

  /** A history the tracker gets wrong: after the clear the player still has effect 1. */
  lemma ForeignRemovalLeavesEffect(o: ClearOrder)
    requires Orders(o, TrackAll(EMPTY, [MobEffect(7, 1, EffectAdd), MobEffect(8, 1, EffectRemove)]))
    ensures ShowAll(7, EMPTY, [MobEffect(7, 1, EffectAdd), MobEffect(8, 1, EffectRemove)] + ClearPackets(7, o)).effects == {1}
  {
    var h := [MobEffect(7, 1, EffectAdd), MobEffect(8, 1, EffectRemove)];
    FoldLast(7, h, 0);
    FoldLast(7, h, 1);
    assert h[..0] == [] && h[..2] == h;
    assert TrackAll(EMPTY, h) == EMPTY;
    var v := ShowAll(7, EMPTY, h);
    assert v == EMPTY.(effects := {1});
    ShowAllAppend(7, EMPTY, h, ClearPackets(7, o));
    NothingListed(o.effects);
    NothingListed(o.entities);
    NothingListed(o.bossBars);
    NothingListed(o.scoreboards);
    assert ClearPackets(7, o) == [PlayerList(false, o.players)];
    assert ShowAll(7, v, [PlayerList(false, o.players)]) == ShowAll(7, Show(7, v, PlayerList(false, o.players)), []);
  }

  // ---- exactly when the clear empties the client -----------------------------------------

  /** The packet gives somebody effect `e` or takes it away. */
  predicate Touches(pk: GamePacket, e: int) {
    pk.MobEffect? && pk.effect == e && !pk.effectOp.EffectModify?
  }

  /** A foreign removal of an effect that no later packet touches, whoever it is for. */
  ghost predicate Loses(local: nat, h: seq<GamePacket>, k: nat)
    requires k < |h|
  {
    ForeignRemoval(local, h, k) && forall j :: k < j < |h| ==> !Touches(h[j], h[k].effect)
  }

  ghost predicate Lost(local: nat, h: seq<GamePacket>, e: int) {
    exists k: nat :: k < |h| && Loses(local, h, k) && h[k].effect == e
  }

  /** A packet that touches the effect decides alone whether it is lost now; any other changes nothing. */
  lemma LostSnoc(local: nat, h: seq<GamePacket>, pk: GamePacket, e: int)
    ensures Lost(local, h + [pk], e) <==>
            if Touches(pk, e)
            then pk.effectOp.EffectRemove? && pk.entity != local && e in ShowAll(local, EMPTY, h).effects
            else Lost(local, h, e)
  {
    var all := h + [pk];
    assert all[..|h|] == h && all[|h|] == pk;
    assert forall k: nat :: k < |h| ==> all[..k] == h[..k] && all[k] == h[k];
    assert forall k: nat :: k < |h| ==> (ForeignRemoval(local, all, k) <==> ForeignRemoval(local, h, k));
    if Touches(pk, e) {
      assert ForeignRemoval(local, all, |h|) <==> Loses(local, all, |h|);
      forall k: nat | k < |h| && h[k].MobEffect? && h[k].effect == e ensures !Loses(local, all, k) {
        assert Touches(all[|h|], all[k].effect);
      }
    } else {
      forall k: nat | k < |h| && h[k].MobEffect? && h[k].effect == e
        ensures Loses(local, all, k) <==> Loses(local, h, k)
      {
        if Loses(local, all, k) {
          assert forall j :: k < j < |h| ==> all[j] == h[j];
        }
      }
    }
  }

  /** After any history, the effects the player has and the tracker does not know are the lost ones. */
  lemma {:induction false} EffectLostIff(local: nat, h: seq<GamePacket>, e: int)
    ensures e in ShowAll(local, EMPTY, h).effects && e !in TrackAll(EMPTY, h).effects <==> Lost(local, h, e)
    decreases |h|
  {
    if h != [] {
      var init, pk := h[..|h| - 1], h[|h| - 1];
      assert init + [pk] == h && h[..|h|] == h;
      EffectLostIff(local, init, e);
      LostSnoc(local, init, pk, e);
      FoldLast(local, h, |h| - 1);
    }
  }

  /** Everything but the effects is covered. */
  ghost predicate CoversRest(s: Scene, v: Scene) {
    Covers(s, v.(effects := {}))
  }

  /** Boss bars, entities, players and scoreboards are covered whatever the history. */
  lemma {:induction false} RestIsCovered(local: nat, s: Scene, v: Scene, h: seq<GamePacket>)
    requires CoversRest(s, v)
    ensures CoversRest(TrackAll(s, h), ShowAll(local, v, h))
    decreases |h|
  {
    if h != [] {
      assert CoversRest(Track(s, h[0]), Show(local, v, h[0]));
      RestIsCovered(local, Track(s, h[0]), Show(local, v, h[0]), h[1..]);
    }
  }

  /** What a clear leaves behind after a history: the lost effects and nothing else. */
  lemma ClearLeavesLost(local: nat, h: seq<GamePacket>, o: ClearOrder)
    requires Orders(o, TrackAll(EMPTY, h))
    ensures var left := ShowAll(local, EMPTY, h + ClearPackets(local, o));
      left == EMPTY.(effects := left.effects) && forall e :: e in left.effects <==> Lost(local, h, e)
  {
    var s, v := TrackAll(EMPTY, h), ShowAll(local, EMPTY, h);
    ShowAllAppend(local, EMPTY, h, ClearPackets(local, o));
    ClearRemoves(local, s, v, o);
    RestIsCovered(local, EMPTY, EMPTY, h);
    forall e ensures e in v.effects - s.effects <==> Lost(local, h, e) {
      EffectLostIff(local, h, e);
    }
  }

  ghost predicate LosesNothing(local: nat, h: seq<GamePacket>) {
    forall k: nat :: k < |h| ==> !Loses(local, h, k)
  }

  lemma NothingLostIff(local: nat, h: seq<GamePacket>)
    ensures LosesNothing(local, h) <==> forall e :: !Lost(local, h, e)
  {
    if k: nat :| k < |h| && Loses(local, h, k) {
      assert Lost(local, h, h[k].effect);
    }
  }

  lemma EmptyIff(xs: set<int>)
    ensures xs == {} <==> forall x :: x !in xs
  {
    if forall x :: x !in xs {
      assert xs <= {};
    }
  }

  /** The clear after a history empties the client if and only if the history has lost no effect. */
  lemma ClearEmptiesIff(local: nat, h: seq<GamePacket>, o: ClearOrder)
    requires Orders(o, TrackAll(EMPTY, h))
    ensures ShowAll(local, EMPTY, h + ClearPackets(local, o)) == EMPTY <==> LosesNothing(local, h)
  {
    ClearLeavesLost(local, h, o);
    NothingLostIff(local, h);
    var left := ShowAll(local, EMPTY, h + ClearPackets(local, o)).effects;
    EmptyIff(left);
  }

  /**
    A fresh start: the clear makes the client indistinguishable from one that has only ever seen
    what comes after it, for every continuation, if and only if no effect was lost before it.
   */
  lemma ClearMakesFreshStart(local: nat, h: seq<GamePacket>, o: ClearOrder)
    requires Orders(o, TrackAll(EMPTY, h))
    ensures (forall later :: ShowAll(local, EMPTY, h + ClearPackets(local, o) + later) == ShowAll(local, EMPTY, later))
        <==> LosesNothing(local, h)
  {
    var all := h + ClearPackets(local, o);
    ClearEmptiesIff(local, h, o);
    if ShowAll(local, EMPTY, all) == EMPTY {
      forall later ensures ShowAll(local, EMPTY, all + later) == ShowAll(local, EMPTY, later) {
        ShowAllAppend(local, EMPTY, all, later);
      }
    } else {
      var nothing: seq<GamePacket> := [];
      assert all + nothing == all;
      assert ShowAll(local, EMPTY, all + nothing) != ShowAll(local, EMPTY, nothing);
    }
  }

  // ---- a client that starts with leftover effects ----------------------------------------

  function Remnant(effects: set<int>): Scene {
    EMPTY.(effects := effects)
  }

  /** Some packet gives the player effect `e` or takes it away. */
  ghost predicate Resets(local: nat, h: seq<GamePacket>, e: int) {
    exists k: nat :: k < |h| && Touches(h[k], e) && h[k].entity == local
  }

  lemma ResetsSnoc(local: nat, h: seq<GamePacket>, pk: GamePacket, e: int)
    ensures Resets(local, h + [pk], e) <==> Resets(local, h, e) || (Touches(pk, e) && pk.entity == local)
  {
    var all := h + [pk];
    assert all[|h|] == pk && forall k: nat :: k < |h| ==> all[k] == h[k];
    if Resets(local, h, e) {
      var k: nat :| k < |h| && Touches(h[k], e) && h[k].entity == local;
      assert Touches(all[k], e) && all[k].entity == local;
    }
  }

  lemma ShowOne(local: nat, v: Scene, pk: GamePacket)
    ensures ShowAll(local, v, [pk]) == Show(local, v, pk)
  {
    assert [pk][1..] == [];
  }

  /** A leftover effect stays until a packet resets it; everything else is as without leftovers. */
  lemma {:induction false} RemnantShows(local: nat, left: set<int>, h: seq<GamePacket>, e: int)
    ensures var v, w := ShowAll(local, Remnant(left), h), ShowAll(local, EMPTY, h);
      && v == w.(effects := v.effects)
      && (Resets(local, h, e) ==> (e in v.effects <==> e in w.effects))
      && (!Resets(local, h, e) ==> e !in w.effects && (e in v.effects <==> e in left))
    decreases |h|
  {
    if h != [] {
      var init, pk := h[..|h| - 1], h[|h| - 1];
      assert h == init + [pk];
      RemnantShows(local, left, init, e);
      ResetsSnoc(local, init, pk, e);
      ShowAllAppend(local, Remnant(left), init, [pk]);
      ShowAllAppend(local, EMPTY, init, [pk]);
      ShowOne(local, ShowAll(local, Remnant(left), init), pk);
      ShowOne(local, ShowAll(local, EMPTY, init), pk);
    }
  }

  /** Leftovers make no difference any more if and only if every one of them has been reset. */
  lemma RemnantGoneIff(local: nat, left: set<int>, h: seq<GamePacket>)
    ensures ShowAll(local, Remnant(left), h) == ShowAll(local, EMPTY, h)
        <==> forall e :: e in left ==> Resets(local, h, e)
  {
    var v, w := ShowAll(local, Remnant(left), h), ShowAll(local, EMPTY, h);
    forall e: int
      ensures v == w.(effects := v.effects)
      ensures (Resets(local, h, e) ==> (e in v.effects <==> e in w.effects))
      ensures !Resets(local, h, e) ==> e !in w.effects && (e in v.effects <==> e in left)
    {
      RemnantShows(local, left, h, e);
    }
    RemnantShows(local, left, h, 0);
    if forall e :: e in left ==> Resets(local, h, e) {
      forall e ensures e in v.effects <==> e in w.effects {
        if !Resets(local, h, e) { assert e !in left; }
      }
      assert v.effects <= w.effects && w.effects <= v.effects;
    }
  }

  /** A packet as handed to the client: one of the latest protocol, or one of the server's own protocol. */
  datatype Written<P> = Latest(pk: GamePacket) | AsReceived(received: P)

  function AllLatest<P>(pks: seq<GamePacket>): (ws: seq<Written<P>>)
    ensures |ws| == |pks| && forall i :: 0 <= i < |pks| ==> ws[i] == Latest(pks[i])
  {
    Map(pk => Latest(pk), pks)
  }

  lemma AllLatestAppend<P>(s: seq<Written<P>>, xs: seq<GamePacket>, ys: seq<GamePacket>)
    ensures s + AllLatest(xs) + AllLatest(ys) == s + AllLatest(xs + ys)
  {
  }

  /** The client side of the proxy: packets written to the player, in order. */
  class Client<P> {
    var sent: seq<Written<P>>
    const runtimeID: nat

    constructor (runtimeID: nat)
      ensures sent == [] && this.runtimeID == runtimeID
    {
      sent := [];
      this.runtimeID := runtimeID;
    }

    method WritePacket(pk: Written<P>)
      modifies this
      ensures sent == old(sent) + [pk]
    {
      sent := sent + [pk];
    }
  }

  /** `Each` on a set: some order, every element once. */
  method Each<T(==)>(s: set<T>) returns (xs: seq<T>)
    ensures Enumerates(xs, s)
  {
    xs := [];
    var todo := s;
    while todo != {}
      invariant todo <= s
      invariant Enumerates(xs, s - todo)
    {
      var x :| x in todo;
      todo := todo - {x};
      ghost var before := xs;
      xs := xs + [x];
      assert Elements(xs) == Elements(before) + {x};
      assert x in before ==> x in Elements(before);
    }
  }

  class Shadow {
    var bossBars: set<int>
    var effects: set<int>
    var entities: set<int>
    var players: set<Uuid>
    var scoreboards: set<string>

    function View(): Scene
      reads this
    {
      Scene(bossBars, effects, entities, players, scoreboards)
    }

    constructor ()
      ensures View() == EMPTY
    {
      bossBars, effects, entities, players, scoreboards := {}, {}, {}, {}, {};
    }

    method HandlePacket(pk: GamePacket)
      modifies this
      ensures View() == Track(old(View()), pk)
    {
      match pk
      case AddActor(id) => entities := entities + {id};
      case AddItemActor(id) => entities := entities + {id};
      case AddPainting(id) => entities := entities + {id};
      case AddPlayer(id) => entities := entities + {id};
      case BossEvent(b, _) => bossBars := bossBars + {b};
      case MobEffect(_, e, op) =>
        if op.EffectAdd? {
          effects := effects + {e};
        } else if op.EffectRemove? {
          effects := effects - {e};
        }
      case PlayerList(add, uuids) =>
        for i := 0 to |uuids|
          invariant View() == old(View()).(players := players)
          invariant players == if add then old(players) + Elements(uuids[..i]) else old(players) - Elements(uuids[..i])
        {
          assert Elements(uuids[..i + 1]) == Elements(uuids[..i]) + {uuids[i]};
          if add {
            players := players + {uuids[i]};
          } else {
            players := players - {uuids[i]};
          }
        }
        assert uuids[..|uuids|] == uuids;
      case RemoveActor(id) => entities := entities - {id};
      case RemoveObjective(n) => scoreboards := scoreboards - {n};
      case SetDisplayObjective(n) => scoreboards := scoreboards + {n};
      case OtherGame(_) =>
    }

    /** Writes one packet for each element, in the order given. */
    static method SendEach<T, P>(client: Client<P>, xs: seq<T>, f: T -> GamePacket)
      modifies client
      ensures client.sent == old(client.sent) + AllLatest(Map(f, xs))
    {
      for i := 0 to |xs|
        invariant client.sent == old(client.sent) + AllLatest(Map(f, xs[..i]))
      {
        client.WritePacket(Latest(f(xs[i])));
        assert Map(f, xs[..i + 1]) == Map(f, xs[..i]) + [f(xs[i])];
      }
      assert xs[..|xs|] == xs;
    }

    method ClearEffects<P>(client: Client<P>) returns (ghost order: seq<int>)
      modifies this, client
      ensures View() == old(View()).(effects := {}) && Enumerates(order, old(effects))
      ensures client.sent == old(client.sent) + AllLatest(Map(e => DropEffect(client.runtimeID, e), order))
    {
      var local := client.runtimeID;
      var xs := Each(effects);
      SendEach(client, xs, e => DropEffect(local, e));
      effects := {};
      order := xs;
      assert Map(e => DropEffect(client.runtimeID, e), xs) == Map(e => DropEffect(local, e), xs);
    }

    method ClearEntities<P>(client: Client<P>) returns (ghost order: seq<int>)
      modifies this, client
      ensures View() == old(View()).(entities := {}) && Enumerates(order, old(entities))
      ensures client.sent == old(client.sent) + AllLatest(Map(id => RemoveActor(id), order))
    {
      var xs := Each(entities);
      SendEach(client, xs, id => RemoveActor(id));
      entities := {};
      order := xs;
    }

    method ClearBossBars<P>(client: Client<P>) returns (ghost order: seq<int>)
      modifies this, client
      ensures View() == old(View()).(bossBars := {}) && Enumerates(order, old(bossBars))
      ensures client.sent == old(client.sent) + AllLatest(Map(b => HideBoss(b), order))
    {
      var xs := Each(bossBars);
      SendEach(client, xs, b => HideBoss(b));
      bossBars := {};
      order := xs;
    }

    method ClearPlayers<P>(client: Client<P>) returns (ghost order: seq<Uuid>)
      modifies this, client
      ensures View() == old(View()).(players := {}) && Enumerates(order, old(players))
      ensures client.sent == old(client.sent) + AllLatest([PlayerList(false, order)])
    {
      var xs := Each(players);
      players := {};
      client.WritePacket(Latest(PlayerList(false, xs)));
      order := xs;
    }

    method ClearScoreboards<P>(client: Client<P>) returns (ghost order: seq<string>)
      modifies this, client
      ensures View() == old(View()).(scoreboards := {}) && Enumerates(order, old(scoreboards))
      ensures client.sent == old(client.sent) + AllLatest(Map(n => RemoveObjective(n), order))
    {
      var xs := Each(scoreboards);
      SendEach(client, xs, n => RemoveObjective(n));
      scoreboards := {};
      order := xs;
    }

    /**
      The five clears of `sendGameData`: the shadow is emptied and the client is sent the
      clearing packets of what it held, in some iteration order.
     */
    method ClearAll<P>(client: Client<P>) returns (ghost o: ClearOrder)
      modifies this, client
      ensures View() == EMPTY
      ensures Orders(o, old(View()))
      ensures client.sent == old(client.sent) + AllLatest(ClearPackets(client.runtimeID, o))
    {
      ghost var sent := client.sent;
      ghost var es := ClearEffects(client);
      ghost var ids := ClearEntities(client);
      ghost var bs := ClearBossBars(client);
      ghost var us := ClearPlayers(client);
      ghost var ns := ClearScoreboards(client);
      o := ClearOrder(es, ids, bs, us, ns);
      ghost var a, b, c, d := Map(e => DropEffect(client.runtimeID, e), es), Map(id => RemoveActor(id), ids),
                              Map(x => HideBoss(x), bs), [PlayerList(false, us)];
      AllLatestAppend(sent, a, b);
      AllLatestAppend(sent, a + b, c);
      AllLatestAppend(sent, a + b + c, d);
      AllLatestAppend(sent, a + b + c + d, Map(n => RemoveObjective(n), ns));
    }
  }
}
