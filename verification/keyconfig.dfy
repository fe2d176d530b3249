/**
 * Key bindings of game/game.py: the in-memory part of load_key_config
 * (filter the configured entries through the allowed-key list, then give
 * every action left without a key the first free allowed default key) and
 * the remap of one action to a freshly pressed key on the key-config
 * screen. A binding table is a Python dict from a pygame 2 key code to an
 * action name, kept as its items in insertion order.
 */
module KeyConfig {
  import opened Wrappers

  /** A pygame 2 key code (the SDL keycode value). */
  type Key = int
  type Action = string
  /** A dict's (key, action) items in insertion order. */
  type Dict = seq<(Key, Action)>

  // The key codes the bindings use.
  const K_TAB: Key := 9
  const K_RETURN: Key := 13
  const K_ESCAPE: Key := 27
  const K_SPACE: Key := 32
  const K_0: Key := 48
  const K_9: Key := 57
  const K_A: Key := 97
  const K_Z: Key := 122
  const K_RIGHT: Key := 1073741903
  const K_LEFT: Key := 1073741904
  const K_DOWN: Key := 1073741905
  const K_UP: Key := 1073741906
  const K_KP_DIVIDE: Key := 1073741908
  const K_KP_PLUS: Key := 1073741911
  const K_KP1: Key := 1073741913
  const K_KP0: Key := 1073741922
  const K_LCTRL: Key := 1073742048
  const K_LSHIFT: Key := 1073742049
  const K_LALT: Key := 1073742050
  const K_RCTRL: Key := 1073742052
  const K_RALT: Key := 1073742054

  /** A letter key a-z. */
  function Letter(c: char): Key
    requires 'a' <= c <= 'z'
  {
    K_A + (c as int - 'a' as int)
  }

  /**
   * ALLOWED_KEYS: the arrows, a-z, 0-9, the keypad digits and + - * /,
   * space, return, escape, tab and the left and right shift, ctrl and alt.
   * In SDL's numbering these are the ranges below (the keypad's enter and
   * the GUI key fall between them and are not allowed).
   */
  predicate Allowed(k: Key) {
    K_RIGHT <= k <= K_UP ||
    K_A <= k <= K_Z ||
    K_0 <= k <= K_9 ||
    K_KP1 <= k <= K_KP0 ||
    K_KP_DIVIDE <= k <= K_KP_PLUS ||
    k == K_SPACE || k == K_RETURN || k == K_ESCAPE || k == K_TAB ||
    K_LCTRL <= k <= K_LALT || K_RCTRL <= k <= K_RALT
  }

  /** The actions, in the order of ACTION_NAMES (the key-config screen's rows). */
  const ACTIONS: seq<Action> := ["up", "down", "left", "right", "weapon_a", "weapon_b", "hyper", "dash", "special", "shield"]

  /** DEFAULT_KEY_MAPPING_P1: arrows, z/j, x/k, space/l, lshift/h, c, v. */
  const DEFAULT_P1: Dict := [
    (K_UP, "up"), (K_DOWN, "down"), (K_LEFT, "left"), (K_RIGHT, "right"),
    (Letter('z'), "weapon_a"), (Letter('j'), "weapon_a"),
    (Letter('x'), "weapon_b"), (Letter('k'), "weapon_b"),
    (K_SPACE, "hyper"), (Letter('l'), "hyper"),
    (K_LSHIFT, "dash"), (Letter('h'), "dash"),
    (Letter('c'), "special"), (Letter('v'), "shield")]

  /** DEFAULT_KEY_MAPPING_P2: w s a d f g r e t y. */
  const DEFAULT_P2: Dict := [
    (Letter('w'), "up"), (Letter('s'), "down"), (Letter('a'), "left"), (Letter('d'), "right"),
    (Letter('f'), "weapon_a"), (Letter('g'), "weapon_b"), (Letter('r'), "hyper"),
    (Letter('e'), "dash"), (Letter('t'), "special"), (Letter('y'), "shield")]

  // ---------------------------------------------------------------- dicts

  /** d.get(k): the action of the item with key k. */
  function Lookup(d: Dict, k: Key): (r: Option<Action>)
    ensures r.None? <==> forall i :: 0 <= i < |d| ==> d[i].0 != k
    ensures r.Some? ==> exists i :: 0 <= i < |d| && d[i] == (k, r.value)
  {
    if |d| == 0 then None
    else if d[0].0 == k then Some(d[0].1)
    else
      var r := Lookup(d[1..], k);
      assert forall i :: 1 <= i < |d| ==> d[i] == d[1..][i - 1];
      r
  }

  /** No key occurs twice, as in every dict. */
  predicate Keyed(d: Dict) {
    |d| == 0 || (Lookup(d[1..], d[0].0).None? && Keyed(d[1..]))
  }

  /** `a in d.values()`. */
  predicate Binds(d: Dict, a: Action) {
    exists i :: 0 <= i < |d| && d[i].1 == a
  }

  /** In a dict, every item is what its key looks up. */
  lemma {:induction false} LookupAt(d: Dict, i: int)
    requires Keyed(d) && 0 <= i < |d|
    ensures Lookup(d, d[i].0) == Some(d[i].1)
  {
    if i > 0 {
      LookupAt(d[1..], i - 1);
      assert d[1..][i - 1] == d[i];
    }
  }

  /** `d[k] = a`: an existing item is overwritten in place, a new key is appended. */
  function Put(d: Dict, k: Key, a: Action): (r: Dict)
    ensures forall j :: Lookup(r, j) == if j == k then Some(a) else Lookup(d, j)
    ensures Keyed(d) ==> Keyed(r)
  {
    if |d| == 0 then [(k, a)]
    else if d[0].0 == k then [(k, a)] + d[1..]
    else
      var r := [d[0]] + Put(d[1..], k, a);
      assert r[1..] == Put(d[1..], k, a);
      r
  }

  /** `del d[k]`. */
  function Delete(d: Dict, k: Key): (r: Dict)
    ensures forall j :: Lookup(r, j) == if j == k then None else Lookup(d, j)
    ensures Keyed(d) ==> Keyed(r)
  {
    if |d| == 0 then []
    else if d[0].0 == k then Delete(d[1..], k)
    else
      var r := [d[0]] + Delete(d[1..], k);
      assert r[1..] == Delete(d[1..], k);
      r
  }

  /** Pairwise distinct keys make a dict. */
  lemma {:induction false} DistinctKeys(d: Dict)
    requires forall i, j :: 0 <= i < j < |d| ==> d[i].0 != d[j].0
    ensures Keyed(d)
  {
    if |d| > 0 {
      DistinctKeys(d[1..]);
      assert forall i :: 0 <= i < |d[1..]| ==> d[1..][i] == d[i + 1];
    }
  }

  /** In a dict, every item is what its key looks up. */
  lemma LookupAll(d: Dict)
    requires Keyed(d)
    ensures forall i :: 0 <= i < |d| ==> Lookup(d, d[i].0) == Some(d[i].1)
  {
    forall i | 0 <= i < |d| {
      LookupAt(d, i);
    }
  }

  /** Both default tables are dicts: no key is listed twice. */
  lemma DefaultsKeyed()
    ensures Keyed(DEFAULT_P1) && Keyed(DEFAULT_P2)
  {
    DistinctKeys(DEFAULT_P1);
    DistinctKeys(DEFAULT_P2);
  }

  /** Every default key is an allowed one. */
  lemma DefaultsAllowed()
    ensures forall i :: 0 <= i < |DEFAULT_P1| ==> Allowed(DEFAULT_P1[i].0)
    ensures forall i :: 0 <= i < |DEFAULT_P2| ==> Allowed(DEFAULT_P2[i].0)
  {
  }

  /** A key the default tables bind is an allowed one. */
  lemma DefaultKeysAllowed()
    ensures forall k :: Lookup(DEFAULT_P1, k).Some? ==> Allowed(k)
    ensures forall k :: Lookup(DEFAULT_P2, k).Some? ==> Allowed(k)
  {
    DefaultsAllowed();
    forall k | Lookup(DEFAULT_P1, k).Some?
      ensures Allowed(k)
    {
      var i :| 0 <= i < |DEFAULT_P1| && DEFAULT_P1[i] == (k, Lookup(DEFAULT_P1, k).value);
    }
    forall k | Lookup(DEFAULT_P2, k).Some?
      ensures Allowed(k)
    {
      var i :| 0 <= i < |DEFAULT_P2| && DEFAULT_P2[i] == (k, Lookup(DEFAULT_P2, k).value);
    }
  }

  /** Each default table gives every action a key. */
  lemma DefaultsBindAll()
    ensures forall a <- ACTIONS :: Binds(DEFAULT_P1, a) && Binds(DEFAULT_P2, a)
  {
    assert DEFAULT_P1[0].1 == "up" && DEFAULT_P1[1].1 == "down" && DEFAULT_P1[2].1 == "left";
    assert DEFAULT_P1[3].1 == "right" && DEFAULT_P1[4].1 == "weapon_a" && DEFAULT_P1[6].1 == "weapon_b";
    assert DEFAULT_P1[8].1 == "hyper" && DEFAULT_P1[10].1 == "dash" && DEFAULT_P1[12].1 == "special";
    assert DEFAULT_P1[13].1 == "shield";
    assert DEFAULT_P2[0].1 == "up" && DEFAULT_P2[1].1 == "down" && DEFAULT_P2[2].1 == "left";
    assert DEFAULT_P2[3].1 == "right" && DEFAULT_P2[4].1 == "weapon_a" && DEFAULT_P2[5].1 == "weapon_b";
    assert DEFAULT_P2[6].1 == "hyper" && DEFAULT_P2[7].1 == "dash" && DEFAULT_P2[8].1 == "special";
    assert DEFAULT_P2[9].1 == "shield";
  }

  // ---------------------------------------------------------------- reading the configured entries

  /**
   * One entry of a player's table in the configuration: the key string as
   * `int(k)` parses it (None where int raises) and the action it names.
   */
  datatype Entry = Entry(key: Option<Key>, action: Action)

  /** The settings the filter builds from the entries in order: each parsed, allowed key is stored. */
  function Retained(entries: seq<Entry>): Dict {
    if |entries| == 0 then []
    else
      var e := entries[|entries| - 1];
      var r := Retained(entries[..|entries| - 1]);
      if e.key.Some? && Allowed(e.key.value) then Put(r, e.key.value, e.action) else r
  }

  /** The action the last entry for key k names, if any entry parses to k. */
  function LastAction(entries: seq<Entry>, k: Key): Option<Action> {
    if |entries| == 0 then None
    else if entries[|entries| - 1].key == Some(k) then Some(entries[|entries| - 1].action)
    else LastAction(entries[..|entries| - 1], k)
  }

  /** The filter loop of load_key_config for one player. */
  method ReadSettings(entries: seq<Entry>) returns (settings: Dict)
    ensures settings == Retained(entries)
  {
    settings := [];
    var i := 0;
    while i < |entries|
      invariant 0 <= i <= |entries|
      invariant settings == Retained(entries[..i])
    {
      var e := entries[i];
      assert entries[..i + 1][..i] == entries[..i];
      match e.key {
        case Some(k) =>
          if Allowed(k) {
            settings := Put(settings, k, e.action);
          }
        case None =>
      }
      i := i + 1;
    }
    assert entries[..i] == entries;
  }

  /**
   * The filtered settings are a dict that binds exactly the allowed keys
   * some entry parses to, each to the action of the last such entry.
   */
  lemma {:induction false} RetainedSpec(entries: seq<Entry>)
    ensures forall k :: Lookup(Retained(entries), k) == if Allowed(k) then LastAction(entries, k) else None
  {
    if |entries| > 0 {
      RetainedSpec(entries[..|entries| - 1]);
    }
  }

  /** The filtered settings are a dict. */
  lemma {:induction false} RetainedKeyed(entries: seq<Entry>)
    ensures Keyed(Retained(entries))
  {
    if |entries| > 0 {
      RetainedKeyed(entries[..|entries| - 1]);
    }
  }

  // ---------------------------------------------------------------- filling missing actions

  predicate Distinct(actions: seq<Action>) {
    forall i, j :: 0 <= i < j < |actions| ==> actions[i] != actions[j]
  }

  /** The ten actions are distinct: no two share their length, first letter and last letter. */
  lemma ActionsDistinct()
    ensures Distinct(ACTIONS)
  {
    forall i, j | 0 <= i < j < |ACTIONS|
      ensures ACTIONS[i] != ACTIONS[j]
    {
      var a, b := ACTIONS[i], ACTIONS[j];
      assert (|a|, a[0], a[|a| - 1]) != (|b|, b[0], b[|b| - 1]);
    }
  }

  /** The actions, in ACTION_NAMES order, that no item of the settings names. */
  function Missing(settings: Dict, actions: seq<Action>): (r: seq<Action>)
    ensures forall a :: a in r <==> a in actions && !Binds(settings, a)
    ensures Distinct(actions) ==> Distinct(r)
  {
    if |actions| == 0 then []
    else
      var rest := Missing(settings, actions[1..]);
      assert forall a :: a in actions <==> a == actions[0] || a in actions[1..];
      if !Binds(settings, actions[0]) then [actions[0]] + rest else rest
  }

  /** The first default key for the action, in dict order, that the settings do not use and that is allowed. */
  function FirstDefault(settings: Dict, defaults: Dict, action: Action): Option<Key> {
    if |defaults| == 0 then None
    else if defaults[0].1 == action && Lookup(settings, defaults[0].0).None? && Allowed(defaults[0].0) then
      Some(defaults[0].0)
    else FirstDefault(settings, defaults[1..], action)
  }

  /** The search for one missing action: the key found, if any, is bound to it. */
  function FillOne(settings: Dict, defaults: Dict, action: Action): Dict {
    match FirstDefault(settings, defaults, action)
    case None => settings
    case Some(k) => Put(settings, k, action)
  }

  /** The searches for the missing actions in turn. */
  function FillAll(settings: Dict, defaults: Dict, actions: seq<Action>): Dict {
    if |actions| == 0 then settings
    else FillOne(FillAll(settings, defaults, actions[..|actions| - 1]), defaults, actions[|actions| - 1])
  }

  /** The key the search finds is a default key for the action, allowed and unused; none is found only when there is none such. */
  lemma {:induction false} FirstDefaultSpec(settings: Dict, defaults: Dict, action: Action)
    ensures match FirstDefault(settings, defaults, action)
            case Some(k) =>
              Lookup(settings, k).None? && Allowed(k) && exists i :: 0 <= i < |defaults| && defaults[i] == (k, action)
            case None =>
              forall i :: 0 <= i < |defaults| && defaults[i].1 == action && Allowed(defaults[i].0) ==>
                Lookup(settings, defaults[i].0).Some?
  {
    if |defaults| > 0 {
      FirstDefaultSpec(settings, defaults[1..], action);
      assert forall i :: 1 <= i < |defaults| ==> defaults[i] == defaults[1..][i - 1];
    }
  }

  /** The search loop for one missing action (the source breaks out of it at the first match). */
  method FindDefault(settings: Dict, defaults: Dict, action: Action) returns (pick: Option<Key>)
    ensures pick == FirstDefault(settings, defaults, action)
  {
    pick := None;
    var j := 0;
    while j < |defaults| && pick.None?
      invariant 0 <= j <= |defaults|
      invariant FirstDefault(settings, defaults, action) ==
                if pick.Some? then pick else FirstDefault(settings, defaults[j..], action)
    {
      var (k, v) := defaults[j];
      assert defaults[j..][1..] == defaults[j + 1..];
      if v == action && Lookup(settings, k).None? && Allowed(k) {
        pick := Some(k);
      }
      j := j + 1;
    }
    if pick.None? {
      assert defaults[j..] == [];
    }
  }

  /** The fill of load_key_config: each action missing from the settings looked up among the defaults. */
  method FillMissing(settings: Dict, defaults: Dict) returns (r: Dict)
    ensures r == FillAll(settings, defaults, Missing(settings, ACTIONS))
  {
    var missing := Missing(settings, ACTIONS);
    r := settings;
    var i := 0;
    while i < |missing|
      invariant 0 <= i <= |missing|
      invariant r == FillAll(settings, defaults, missing[..i])
    {
      var action := missing[i];
      assert missing[..i + 1][..i] == missing[..i];
      var pick := FindDefault(r, defaults, action);
      if pick.Some? {
        r := Put(r, pick.value, action);
      }
      i := i + 1;
    }
    assert missing[..i] == missing;
  }

  /**
   * The fill keeps every configured binding and adds only allowed, unused
   * default keys, each for one of the actions being filled and no two for
   * the same action.
   */
  lemma {:induction false} FillAllSpec(settings: Dict, defaults: Dict, actions: seq<Action>)
    requires Distinct(actions)
    ensures var r := FillAll(settings, defaults, actions);
            (Keyed(settings) ==> Keyed(r)) &&
            (forall k :: Lookup(settings, k).Some? ==> Lookup(r, k) == Lookup(settings, k)) &&
            (forall k :: Lookup(r, k).Some? && Lookup(settings, k).None? ==>
               Allowed(k) && Lookup(r, k).value in actions &&
               exists i :: 0 <= i < |defaults| && defaults[i] == (k, Lookup(r, k).value)) &&
            (forall k1, k2 :: Lookup(r, k1).Some? && Lookup(settings, k1).None? && Lookup(r, k2) == Lookup(r, k1) ==>
               Lookup(settings, k2).Some? || k1 == k2)
  {
    if |actions| > 0 {
      var init := actions[..|actions| - 1];
      var a := actions[|actions| - 1];
      FillAllSpec(settings, defaults, init);
      var r0 := FillAll(settings, defaults, init);
      FirstDefaultSpec(r0, defaults, a);
      assert forall b :: b in init ==> b in actions && b != a;
    }
  }

  /**
   * After the fill, an action being filled is left unnamed only when every
   * allowed default key for it is already taken by the configured settings.
   */
  lemma {:induction false} FillAllCovers(settings: Dict, defaults: Dict, actions: seq<Action>)
    requires Distinct(actions) && Keyed(defaults) && Keyed(settings)
    ensures var r := FillAll(settings, defaults, actions);
            forall a :: a in actions ==>
              Binds(r, a) ||
              forall i :: 0 <= i < |defaults| && defaults[i].1 == a && Allowed(defaults[i].0) ==>
                Lookup(settings, defaults[i].0).Some?
  {
    if |actions| > 0 {
      var init := actions[..|actions| - 1];
      var a := actions[|actions| - 1];
      FillAllCovers(settings, defaults, init);
      FillAllSpec(settings, defaults, init);
      var r0 := FillAll(settings, defaults, init);
      var r := FillAll(settings, defaults, actions);
      FirstDefaultSpec(r0, defaults, a);
      assert forall n :: 0 <= n < |init| ==> init[n] == actions[n] != a;
      assert a !in init;
      match FirstDefault(r0, defaults, a) {
        case Some(k) =>
          assert Lookup(r, k) == Some(a);
          assert Binds(r, a);
        case None =>
          // a key filled for an earlier action is that action's default item, not a's
          LookupAll(defaults);
      }
      forall b | b in init && Binds(r0, b)
        ensures Binds(r, b)
      {
        var n :| 0 <= n < |r0| && r0[n].1 == b;
        LookupAt(r0, n);
        assert Lookup(r, r0[n].0) == Lookup(r0, r0[n].0);
      }
    }
  }

  /** The fill keeps every action the settings already name. */
  lemma FillAllKeepsBound(settings: Dict, defaults: Dict, actions: seq<Action>)
    requires Distinct(actions) && Keyed(settings)
    ensures var r := FillAll(settings, defaults, actions);
            forall a :: Binds(settings, a) ==> Binds(r, a)
  {
    FillAllSpec(settings, defaults, actions);
    LookupAll(settings);
    var r := FillAll(settings, defaults, actions);
    forall a | Binds(settings, a)
      ensures Binds(r, a)
    {
      var i :| 0 <= i < |settings| && settings[i].1 == a;
      assert Lookup(r, settings[i].0) == Some(a);
    }
  }

  /** The filter and the fill together, for one player's table. */
  function Merge(entries: seq<Entry>, defaults: Dict): Dict {
    var settings := Retained(entries);
    FillAll(settings, defaults, Missing(settings, ACTIONS))
  }

  /**
   * The merged table is a dict of allowed keys only, and keeps every
   * binding the filter retained: each allowed key an entry parses to, with
   * the action of the last such entry.
   */
  lemma MergeKeepsEntries(entries: seq<Entry>, defaults: Dict)
    ensures var r := Merge(entries, defaults);
            Keyed(r) &&
            (forall k :: Lookup(r, k).Some? ==> Allowed(k)) &&
            (forall k :: Allowed(k) && LastAction(entries, k).Some? ==> Lookup(r, k) == LastAction(entries, k))
  {
    RetainedSpec(entries);
    RetainedKeyed(entries);
    ActionsDistinct();
    FillAllSpec(Retained(entries), defaults, Missing(Retained(entries), ACTIONS));
  }

  /**
   * A key the merge adds is a default key for an action the configured
   * settings leave unnamed, not used by them, and no such action gets two.
   */
  lemma MergeFillsOnce(entries: seq<Entry>, defaults: Dict)
    ensures var s := Retained(entries);
            var r := Merge(entries, defaults);
            (forall k :: Lookup(r, k).Some? && Lookup(s, k).None? ==>
               Lookup(r, k).value in ACTIONS && !Binds(s, Lookup(r, k).value) &&
               exists i :: 0 <= i < |defaults| && defaults[i] == (k, Lookup(r, k).value)) &&
            (forall k1, k2 :: Lookup(r, k1).Some? && Lookup(s, k1).None? && Lookup(r, k2) == Lookup(r, k1) ==>
               Lookup(s, k2).Some? || k1 == k2)
  {
    ActionsDistinct();
    FillAllSpec(Retained(entries), defaults, Missing(Retained(entries), ACTIONS));
  }

  /** After the merge an action is left unnamed only when every allowed default key for it is configured for something. */
  lemma MergeCovers(entries: seq<Entry>, defaults: Dict)
    requires Keyed(defaults)
    ensures var s := Retained(entries);
            var r := Merge(entries, defaults);
            forall a :: a in ACTIONS ==>
              Binds(r, a) ||
              forall i :: 0 <= i < |defaults| && defaults[i].1 == a && Allowed(defaults[i].0) ==> Lookup(s, defaults[i].0).Some?
  {
    var s := Retained(entries);
    RetainedKeyed(entries);
    ActionsDistinct();
    FillAllCovers(s, defaults, Missing(s, ACTIONS));
    FillAllKeepsBound(s, defaults, Missing(s, ACTIONS));
  }

  /** A merged table is never empty when the defaults hold an allowed key for "up": an empty filter result gets it filled. */
  lemma MergeNonEmpty(entries: seq<Entry>, defaults: Dict, i: int)
    requires Keyed(defaults) && 0 <= i < |defaults| && defaults[i].1 == "up" && Allowed(defaults[i].0)
    ensures |Merge(entries, defaults)| > 0
  {
    var s := Retained(entries);
    if |s| == 0 {
      assert "up" in Missing(s, ACTIONS);
      ActionsDistinct();
      FillAllCovers(s, defaults, Missing(s, ACTIONS));
      var r := Merge(entries, defaults);
      assert Binds(r, "up");
      var n :| 0 <= n < |r| && r[n].1 == "up";
    } else {
      ActionsDistinct();
      FillAllSpec(s, defaults, Missing(s, ACTIONS));
      assert Lookup(s, s[0].0).Some?;
      assert Lookup(Merge(entries, defaults), s[0].0).Some?;
    }
  }

  // ---------------------------------------------------------------- load_key_config

  /** The configuration file's "p1" and "p2" tables, None where the table is absent. */
  datatype Config = Config(p1: Option<seq<Entry>>, p2: Option<seq<Entry>>)

  /** KEY_MAPPING_P1, KEY_MAPPING_P2 and the legacy KEY_MAPPING. */
  datatype Bindings = Bindings(p1: Dict, p2: Dict, legacy: Dict)

  /** Both tables present and non-empty. */
  predicate ValidConfig(c: Config) {
    c.p1.Some? && |c.p1.value| > 0 && c.p2.Some? && |c.p2.value| > 0
  }

  /** The tables load_key_config installs. */
  function Loaded(config: Option<Config>): Bindings {
    if config.None? || !ValidConfig(config.value) then Bindings(DEFAULT_P1, DEFAULT_P2, DEFAULT_P1)
    else
      var p1 := Merge(config.value.p1.value, DEFAULT_P1);
      var p2 := Merge(config.value.p2.value, DEFAULT_P2);
      Bindings(p1, p2, p1)
  }

  /**
   * load_key_config without the file: `config` is None when the file is
   * missing or reading it raised. The defaults are installed first; a valid
   * configuration replaces each non-empty merged table; the legacy mapping
   * copies player 1's; empty tables fall back at the end.
   */
  method LoadKeyConfig(config: Option<Config>) returns (b: Bindings)
    ensures b == Loaded(config)
  {
    var p1 := DEFAULT_P1;
    var p2 := DEFAULT_P2;
    var legacy := p1;
    if config.Some? && ValidConfig(config.value) {
      var s1 := ReadSettings(config.value.p1.value);
      var s2 := ReadSettings(config.value.p2.value);
      s1 := FillMissing(s1, DEFAULT_P1);
      s2 := FillMissing(s2, DEFAULT_P2);
      DefaultsKeyed();
      MergeNonEmpty(config.value.p1.value, DEFAULT_P1, 0);
      MergeNonEmpty(config.value.p2.value, DEFAULT_P2, 0);
      if |s1| > 0 {
        p1 := s1;
      }
      if |s2| > 0 {
        p2 := s2;
      }
      legacy := p1;
    }
    if |p1| == 0 {
      p1 := DEFAULT_P1;
    }
    if |legacy| == 0 {
      legacy := p1;
    }
    b := Bindings(p1, p2, legacy);
  }

  /**
   * Whatever the configuration, the installed tables are dicts of allowed
   * keys only, and the legacy mapping is player 1's.
   */
  lemma LoadedWellFormed(config: Option<Config>)
    ensures var b := Loaded(config);
            Keyed(b.p1) && Keyed(b.p2) && b.legacy == b.p1 &&
            (forall k :: Lookup(b.p1, k).Some? ==> Allowed(k)) &&
            (forall k :: Lookup(b.p2, k).Some? ==> Allowed(k))
  {
    if config.Some? && ValidConfig(config.value) {
      MergeKeepsEntries(config.value.p1.value, DEFAULT_P1);
      MergeKeepsEntries(config.value.p2.value, DEFAULT_P2);
    } else {
      DefaultsKeyed();
      DefaultKeysAllowed();
    }
  }

  // ---------------------------------------------------------------- remapping one action

  /** The deletion loop over a copy of the dict's items: every key bound to the action is deleted. */
  method RemoveAction(d: Dict, action: Action) returns (r: Dict)
    requires Keyed(d)
    ensures Keyed(r)
    ensures forall j :: Lookup(r, j) == if Lookup(d, j) == Some(action) then None else Lookup(d, j)
  {
    r := d;
    var i := 0;
    while i < |d|
      invariant 0 <= i <= |d|
      invariant Keyed(r)
      invariant forall j :: Lookup(r, j) ==
                  if exists n :: 0 <= n < i && d[n] == (j, action) then None else Lookup(d, j)
    {
      var (k, v) := d[i];
      if v == action {
        r := Delete(r, k);
      }
      i := i + 1;
    }
    forall j
      ensures (exists n :: 0 <= n < |d| && d[n] == (j, action)) <==> Lookup(d, j) == Some(action)
    {
      if exists n :: 0 <= n < |d| && d[n] == (j, action) {
        var n :| 0 <= n < |d| && d[n] == (j, action);
        LookupAt(d, n);
      }
    }
  }

  /** What key j looks up after the action is remapped to `key`. */
  function Remapped(d: Dict, key: Key, action: Action, j: Key): Option<Action> {
    if j == key then Some(action)
    else if Lookup(d, j) == Some(action) then None
    else Lookup(d, j)
  }

  /**
   * After a remap the new key is the only key for the action, and any
   * other key keeps its old action unless that was the remapped one.
   */
  lemma RemappedSpec(d: Dict, key: Key, action: Action)
    ensures Remapped(d, key, action, key) == Some(action)
    ensures forall j :: Remapped(d, key, action, j) == Some(action) ==> j == key
    ensures forall j :: j != key && Lookup(d, j) != Some(action) ==> Remapped(d, key, action, j) == Lookup(d, j)
  {
  }

  /**
   * A remap keeps every action bound, provided the pressed key was not the
   * only key of another action.
   */
  lemma RemapKeepsCoverage(d: Dict, key: Key, action: Action)
    requires forall a <- ACTIONS :: exists k :: Lookup(d, k) == Some(a)
    requires Lookup(d, key).Some? && Lookup(d, key) != Some(action) ==>
               exists k :: k != key && Lookup(d, k) == Lookup(d, key)
    ensures forall a <- ACTIONS :: exists k :: Remapped(d, key, action, k) == Some(a)
  {
    forall a | a in ACTIONS
      ensures exists k :: Remapped(d, key, action, k) == Some(a)
    {
      if a == action {
        assert Remapped(d, key, action, key) == Some(a);
      } else {
        var k :| Lookup(d, k) == Some(a);
        if k == key {
          var k' :| k' != key && Lookup(d, k') == Lookup(d, key);
          assert Remapped(d, key, action, k') == Some(a);
        } else {
          assert Remapped(d, key, action, k) == Some(a);
        }
      }
    }
  }

  /** Remapping "down" to player 2's W key leaves "up", whose only key W was, unbound. */
  lemma RemapCanUnbind()
    ensures forall j :: Remapped(DEFAULT_P2, Letter('w'), "down", j) != Some("up")
  {
  }
}
