/** JSON values, as the template files and the merged request dictionaries hold them. */
module JsonValue {

  datatype Json =
    | JNull
    | JBool(b: bool)
    | JNum(n: real)
    | JStr(s: string)
    | JObj(fields: map<string, Json>)
    | JArr(items: seq<Json>)

  /** `d.get(key, default)`. */
  function Get(d: map<string, Json>, key: string, default: Json): Json {
    if key in d then d[key] else default
  }

  /** The entries whose value is not None. */
  function NonNull(d: map<string, Json>): map<string, Json> {
    map k | k in d && d[k] != JNull :: d[k]
  }

  /** `for key, value in user.items(): if value is not None: base[key] = value`:
      every non-None entry of `user` replaces or adds to `base`. */
  function Overrides(base: map<string, Json>, user: map<string, Json>): map<string, Json> {
    base + NonNull(user)
  }

  /** The merged dictionary has the keys of `base` and the non-None keys of
      `user`, and the user's value wherever it has one. */
  lemma {:induction false} OverridesMeaning(base: map<string, Json>, user: map<string, Json>)
    ensures var r := Overrides(base, user);
      && (forall k :: k in r <==> k in base || (k in user && user[k] != JNull))
      && (forall k :: k in r ==> r[k] == (if k in user && user[k] != JNull then user[k] else base[k]))
  {
  }

  /** The entries of `d` at the given keys. */
  function Restrict(d: map<string, Json>, keys: set<string>): map<string, Json> {
    map k | k in d && k in keys :: d[k]
  }

  /** Taking one more key of `user` into the overrides. */
  lemma {:induction false} OverridesStep(base: map<string, Json>, user: map<string, Json>, rest: set<string>, key: string)
    requires key in rest && rest <= user.Keys
    ensures Overrides(base, Restrict(user, user.Keys - (rest - {key})))
            == if user[key] != JNull then Overrides(base, Restrict(user, user.Keys - rest))[key := user[key]]
               else Overrides(base, Restrict(user, user.Keys - rest))
  {
    var done := user.Keys - rest;
    var m := Restrict(user, done);
    assert Restrict(user, user.Keys - (rest - {key})) == m[key := user[key]] by {
      assert user.Keys - (rest - {key}) == done + {key};
    }
    assert key !in m;
    if user[key] != JNull {
      assert NonNull(m[key := user[key]]) == NonNull(m)[key := user[key]];
      assert base + NonNull(m)[key := user[key]] == (base + NonNull(m))[key := user[key]];
    } else {
      assert NonNull(m[key := user[key]]) == NonNull(m);
    }
  }

  lemma {:induction false} OverridesOfNothing(base: map<string, Json>, user: map<string, Json>)
    ensures Overrides(base, Restrict(user, user.Keys - user.Keys)) == base
  {
    assert Restrict(user, user.Keys - user.Keys) == map[];
    assert NonNull(map[]) == map[];
  }

  lemma {:induction false} RestrictToAll(user: map<string, Json>)
    ensures Restrict(user, user.Keys - {}) == user
  {
  }

  /** The override loop itself, one key of `user` at a time, in whatever
      order the dictionary yields them. */
  method ApplyOverrides(base: map<string, Json>, user: map<string, Json>) returns (merged: map<string, Json>)
    ensures merged == Overrides(base, user)
  {
    merged := base;
    var rest := user.Keys;
    OverridesOfNothing(base, user);
    while rest != {}
      invariant rest <= user.Keys
      invariant merged == Overrides(base, Restrict(user, user.Keys - rest))
      decreases |rest|
    {
      var key :| key in rest;
      var value := user[key];
      OverridesStep(base, user, rest, key);
      if value != JNull {
        merged := merged[key := value];
      }
      rest := rest - {key};
    }
    RestrictToAll(user);
  }
}
