/** The Scope class of src/Scope.ts: the methods update the fields step by step, as the
    TypeScript does, and each is proved to have the effect the ScopeSpec function of the
    same operation describes. */
module ScopeStore {
  import opened ScopeSpec

  /** Lists the members of `s`, each once, in the order a choice picks them (the array
      spread of a Set in saveSettings). */
  method Enumerate(s: set<string>) returns (xs: seq<string>)
    ensures Enumerates(xs, s)
  {
    xs := [];
    var rest := s;
    while rest != {}
      invariant rest <= s
      invariant Distinct(xs)
      invariant Elems(xs) == s - rest
      decreases rest
    {
      var x :| x in rest;
      assert x !in Elems(xs);
      assert Elems(xs + [x]) == Elems(xs) + {x};
      xs := xs + [x];
      rest := rest - {x};
    }
  }

  class Scope {
    var scopes: map<string, ScopeSettings>
    var activeScope: string
    var globalExclude: map<string, bool>
    var enabled: bool
    /** The host's vscode.workspace.asRelativePath, taken as given. */
    const asRelativePath: string -> string
    /** What getSettings wrote when the object was built. */
    var startupWrite: Saved

    /** The fields as one value. */
    function Snapshot(): State
      reads this
    {
      State(scopes, activeScope, globalExclude, enabled)
    }

    /** The field initialisers, then getSettings. */
    constructor (asRelativePath: string -> string, stored: Stored, hostExclude: map<string, bool>)
      ensures this.asRelativePath == asRelativePath
      ensures Snapshot() == Loaded(stored, hostExclude)
      ensures Persists(startupWrite, Snapshot())
    {
      this.asRelativePath := asRelativePath;
      scopes := map[];
      activeScope := "base";
      globalExclude := map[];
      enabled := false;
      new;
      startupWrite := GetSettings(stored, hostExclude);
    }

    /** refresh: write the current state out again. */
    method Refresh() returns (saved: Saved)
      ensures Persists(saved, Snapshot())
    {
      saved := SaveSettings();
    }

    method Toggle() returns (saved: Saved)
      modifies this
      ensures Snapshot() == Toggled(old(Snapshot()))
      ensures startupWrite == old(startupWrite)
      ensures Persists(saved, Snapshot())
    {
      enabled := !enabled;
      saved := SaveSettings();
    }

    method SetActiveScope(scope: string) returns (saved: Saved)
      modifies this
      ensures Snapshot() == WithActiveScope(old(Snapshot()), scope)
      ensures startupWrite == old(startupWrite)
      ensures Persists(saved, Snapshot())
    {
      activeScope := scope;
      if scope !in scopes {
        scopes := scopes[scope := EmptyScope];
      }
      saved := SaveSettings();
    }

    /** The `scope` getter: the active scope's lists, defined only when that scope exists. */
    function Current(): (sc: ScopeSettings)
      reads this
      requires activeScope in scopes
      ensures sc == scopes[activeScope]
      ensures AllDisjoint(Snapshot()) ==> sc.Disjoint()
    {
      scopes[activeScope]
    }

    method Add(list: ListName, val: string) returns (saved: Saved)
      requires activeScope in scopes
      modifies this
      ensures Snapshot() == Added(old(Snapshot()), list, asRelativePath(val))
      ensures startupWrite == old(startupWrite)
      ensures Persists(saved, Snapshot())
    {
      var path := asRelativePath(val);
      scopes := scopes[activeScope := Current().(included := Current().included - {path})];
      scopes := scopes[activeScope := Current().(excluded := Current().excluded - {path})];
      scopes := scopes[activeScope := Current().With(list, Current().Get(list) + {path})];
      saved := SaveSettings();
    }

    method Remove(list: ListName, val: string) returns (saved: Saved)
      requires activeScope in scopes
      modifies this
      ensures Snapshot() == Removed(old(Snapshot()), list, asRelativePath(val))
      ensures startupWrite == old(startupWrite)
      ensures Persists(saved, Snapshot())
    {
      var path := asRelativePath(val);
      scopes := scopes[activeScope := Current().With(list, Current().Get(list) - {path})];
      saved := SaveSettings();
    }

    /** One successful pass of getSettings' try block: copy the plain fields, then turn
        each stored scope's arrays into sets. */
    method LoadRecord(rec: JsonScopeSettings)
      modifies this
      ensures Snapshot() == Decode(rec)
    {
      activeScope := rec.activeScope;
      globalExclude := rec.globalExclude;
      enabled := rec.enabled;
      scopes := map[];
      var keys := rec.scopes.Keys;
      while keys != {}
        invariant keys <= rec.scopes.Keys
        invariant scopes.Keys == rec.scopes.Keys - keys
        invariant forall k :: k in scopes ==> scopes[k] == DecodeScopes(rec.scopes)[k]
        invariant activeScope == rec.activeScope && globalExclude == rec.globalExclude
        invariant enabled == rec.enabled
        decreases keys
      {
        var key :| key in keys;
        scopes := scopes[key := ScopeSettings(Elems(rec.scopes[key].included), Elems(rec.scopes[key].excluded))];
        keys := keys - {key};
      }
      assert scopes == DecodeScopes(rec.scopes);
    }

    /** getSettings: two attempts; an attempt on a value whose decoding throws falls back
        to the defaults carrying the host's file exclusions, which the next attempt loads. */
    method GetSettings(stored: Stored, hostExclude: map<string, bool>) returns (saved: Saved)
      modifies this
      ensures Snapshot() == Loaded(stored, hostExclude)
      ensures Persists(saved, Snapshot())
    {
      var scopeSettings := if stored.Unset? then Value(DefaultSettings()) else stored;
      var attempts := 0;
      while attempts < 2
        invariant 0 <= attempts <= 2
        invariant attempts == 0 ==> scopeSettings == (if stored.Unset? then Value(DefaultSettings()) else stored)
        invariant attempts > 0 ==> scopeSettings == Value(Resolve(stored, hostExclude))
        invariant attempts == 2 || (attempts == 1 && !stored.Malformed?) ==>
          Snapshot() == Loaded(stored, hostExclude)
      {
        if scopeSettings.Value? {
          LoadRecord(scopeSettings.settings);
        } else {
          scopeSettings := Value(DefaultSettings().(globalExclude := hostExclude));
        }
        attempts := attempts + 1;
      }
      saved := SaveSettings();
    }

    /** generateExclusionGlobs; None stands for the TypeError of reading `excluded` of a
        missing active scope. */
    method GenerateExclusionGlobs() returns (r: Option<map<string, bool>>)
      ensures r == ExclusionGlobs(Snapshot())
      ensures r.None? <==> enabled && activeScope !in scopes
      ensures !enabled ==> r == Some(globalExclude)
      ensures r.Some? && enabled ==>
        r.value.Keys == globalExclude.Keys + scopes[activeScope].excluded
        && forall k :: k in scopes[activeScope].excluded ==> r.value[k]
    {
      var result := globalExclude;
      if !enabled {
        return Some(result);
      }
      if activeScope !in scopes {
        return None;
      }
      var excluded := scopes[activeScope].excluded;
      var rest := excluded;
      while rest != {}
        invariant rest <= excluded
        invariant result.Keys == globalExclude.Keys + (excluded - rest)
        invariant forall k :: k in excluded - rest ==> result[k]
        invariant forall k :: k in globalExclude && k !in excluded - rest ==> result[k] == globalExclude[k]
        decreases rest
      {
        var name :| name in rest;
        result := result[name := true];
        rest := rest - {name};
      }
      r := Some(result);
      assert result == ExclusionGlobs(Snapshot()).value;
    }

    /** saveSettings: build the settings record, one scope at a time, and the
        "files.exclude" map. */
    method SaveSettings() returns (saved: Saved)
      ensures Persists(saved, Snapshot())
    {
      var out: map<string, JsonLists> := map[];
      var keys := scopes.Keys;
      while keys != {}
        invariant keys <= scopes.Keys
        invariant out.Keys == scopes.Keys - keys
        invariant forall k :: k in out ==>
          Enumerates(out[k].included, scopes[k].included) && Enumerates(out[k].excluded, scopes[k].excluded)
        decreases keys
      {
        var key :| key in keys;
        var scope := scopes[key];
        var included := Enumerate(scope.included);
        var excluded := Enumerate(scope.excluded);
        out := out[key := JsonLists(included, excluded)];
        keys := keys - {key};
      }
      var settings := JsonScopeSettings(activeScope, globalExclude, enabled, out);
      var filesExclude := GenerateExclusionGlobs();
      saved := Saved(settings, filesExclude);
    }
  }
}
