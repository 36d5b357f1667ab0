/** templates.py: resolution of the Meson literal that stands for an object
    of a given type. The two catalogues (`templates` and `special`) are data
    and are taken as parameters. */
module Templates {
  import opened Wrappers
  import opened Strings
  import opened Util
  import opened Exceptions

  /** Key of a special catalogue naming the object a method operates on. */
  const OBJECT := "_obj"
  /** Marker replaced by a freshly drawn quoted name each time a template is fetched. */
  const RANDOM_STRING := "$RANDOM_STRING$"
  /** Marker replaced by the build file's directory when a line is appended. */
  const BUILDFILE_DIR := "$BUILDFILE_DIR$"

  /** A key of a special catalogue: `(name, T)`, a parameter name, or a type. */
  datatype SpecialKey =
    | NameTypeKey(name: string, t: Type)
    | NameKey(name: string)
    | TypeKey(t: Type)

  /** The two dictionaries of templates.py: the global template of each type,
      and for some functions and methods a catalogue of overrides. A special
      catalogue is found by the identity of its function, given here as a
      string. */
  datatype Catalogue = Catalogue(
    templates: map<Type, string>,
    special: map<string, map<SpecialKey, string>>)

  /** A fetched template: every `$RANDOM_STRING$` becomes the same freshly drawn
      name, in single quotes. */
  function Instantiate(tmpl: string, drawn: string): string {
    Replace(tmpl, RANDOM_STRING, "'" + drawn + "'")
  }

  /** The raw template `get_template` picks, before substitution: the
      global one when no special catalogue applies; otherwise `(name, T)`,
      then `name`, then `T`, then the global one. */
  function Pick(cat: Catalogue, t: Type, name: Option<string>, key: Option<string>): Option<string> {
    if key.None? || key.value !in cat.special then
      if t in cat.templates then Some(cat.templates[t]) else None
    else
      var sp := cat.special[key.value];
      if name.Some? && NameTypeKey(name.value, t) in sp then Some(sp[NameTypeKey(name.value, t)])
      else if name.Some? && NameKey(name.value) in sp then Some(sp[NameKey(name.value)])
      else if TypeKey(t) in sp then Some(sp[TypeKey(t)])
      else if t in cat.templates then Some(cat.templates[t])
      else None
  }

  /** templates.get_template. `drawn` is the name util.varname hands out for
      this call. */
  function GetTemplate(cat: Catalogue, t: Type, name: Option<string>, key: Option<string>, drawn: string)
    : (r: Result<string, Exception>)
    ensures r.Failure? ==> r.error == TemplateNotFound(t)
    ensures r.Failure? <==> Pick(cat, t, name, key).None?
  {
    match Pick(cat, t, name, key)
    case None => Failure(TemplateNotFound(t))
    case Some(tmpl) => Success(Instantiate(tmpl, drawn))
  }

  /** A fetched template holds no `$RANDOM_STRING$` any more, whatever the
      catalogue holds. */
  lemma NoMarkerLeft(cat: Catalogue, t: Type, name: Option<string>, key: Option<string>, drawn: string)
    requires IsVarName(drawn)
    ensures GetTemplate(cat, t, name, key, drawn).Success? ==>
      !Contains(GetTemplate(cat, t, name, key, drawn).value, RANDOM_STRING)
  {
    if Pick(cat, t, name, key).Some? {
      FreshNameSeparates(drawn);
      ReplaceRemovesAll(Pick(cat, t, name, key).value, RANDOM_STRING, "'" + drawn + "'");
    }
  }

  /** A character that is neither a letter nor a quote is not in a quoted
      random name. */
  lemma QuotedNameLacks(drawn: string, ch: char)
    requires IsVarName(drawn) && !IsAsciiLetter(ch) && ch != '\''
    ensures ch !in "'" + drawn + "'"
  {
    var rep := "'" + drawn + "'";
    forall k | 0 <= k < |rep|
      ensures rep[k] != ch
    {
      if 0 < k < |rep| - 1 {
        assert rep[k] == drawn[k - 1];
      }
    }
  }

  /** A quoted random name cannot recreate the marker. */
  lemma FreshNameSeparates(drawn: string)
    requires IsVarName(drawn)
    ensures Separates(RANDOM_STRING, "'" + drawn + "'")
  {
    var rep := "'" + drawn + "'";
    QuotedNameLacks(drawn, '$');
    assert rep[0] == '\'';
    assert '\'' !in RANDOM_STRING;
    SeparatesBy(RANDOM_STRING, rep, '\'');
  }

  /** The precedence of the special catalogue written as a priority list: the
      first of `(name, T)`, `name` and `T` that the catalogue holds. */
  function Priority(t: Type, name: Option<string>): seq<SpecialKey> {
    (if name.Some? then [NameTypeKey(name.value, t), NameKey(name.value)] else []) + [TypeKey(t)]
  }

  function FirstPresent(sp: map<SpecialKey, string>, ks: seq<SpecialKey>): (r: Option<string>)
    ensures r.Some? <==> exists k :: 0 <= k < |ks| && ks[k] in sp
    decreases |ks|
  {
    if ks == [] then None
    else if ks[0] in sp then Some(sp[ks[0]])
    else
      var r := FirstPresent(sp, ks[1..]);
      assert forall k :: 1 <= k < |ks| ==> ks[k] == ks[1..][k - 1];
      r
  }

  /** get_template with a special catalogue is the first override in
      priority order that the catalogue holds, falling back to the global
      template. */
  lemma PickIsFirstPresent(cat: Catalogue, t: Type, name: Option<string>, key: string)
    requires key in cat.special
    ensures Pick(cat, t, name, Some(key)) ==
      match FirstPresent(cat.special[key], Priority(t, name))
      case Some(tmpl) => Some(tmpl)
      case None => if t in cat.templates then Some(cat.templates[t]) else None
  {
    var ks := Priority(t, name);
    var sp := cat.special[key];
    if name.Some? {
      var n := name.value;
      assert ks == [NameTypeKey(n, t), NameKey(n), TypeKey(t)];
      assert ks[1..] == [NameKey(n), TypeKey(t)];
      assert ks[1..][1..] == [TypeKey(t)];
      assert FirstPresent(sp, [TypeKey(t)]) == if TypeKey(t) in sp then Some(sp[TypeKey(t)]) else FirstPresent(sp, []);
      assert FirstPresent(sp, ks[1..]) == if NameKey(n) in sp then Some(sp[NameKey(n)]) else FirstPresent(sp, [TypeKey(t)]);
    } else {
      assert ks == [TypeKey(t)];
      assert ks[1..] == [];
    }
  }

  /** Without a special catalogue for the key, only the global catalogue is
      consulted; a type without a global template is an error. */
  lemma NoSpecialUsesGlobal(cat: Catalogue, t: Type, name: Option<string>, key: Option<string>, drawn: string)
    requires key.None? || key.value !in cat.special
    ensures t in cat.templates ==> GetTemplate(cat, t, name, key, drawn) == Success(Instantiate(cat.templates[t], drawn))
    ensures t !in cat.templates ==> GetTemplate(cat, t, name, key, drawn) == Failure(TemplateNotFound(t))
  {
  }

  /** A `(name, T)` override beats every other entry, a name override beats
      type and global entries, and a type override beats the global one. */
  lemma OverridePrecedence(cat: Catalogue, t: Type, name: string, key: string, drawn: string)
    requires key in cat.special
    ensures NameTypeKey(name, t) in cat.special[key] ==>
      GetTemplate(cat, t, Some(name), Some(key), drawn) == Success(Instantiate(cat.special[key][NameTypeKey(name, t)], drawn))
    ensures NameTypeKey(name, t) !in cat.special[key] && NameKey(name) in cat.special[key] ==>
      GetTemplate(cat, t, Some(name), Some(key), drawn) == Success(Instantiate(cat.special[key][NameKey(name)], drawn))
    ensures NameTypeKey(name, t) !in cat.special[key] && NameKey(name) !in cat.special[key] ==>
      GetTemplate(cat, t, Some(name), Some(key), drawn) == GetTemplate(cat, t, None, Some(key), drawn)
  {
  }

  /** Everything outside the entries for `(name, T)`, `name`, `T` and the
      global `T` is irrelevant to the result. */
  lemma GetTemplateIsLocal(c1: Catalogue, c2: Catalogue, t: Type, name: string, key: string, drawn: string)
    requires key in c1.special <==> key in c2.special
    requires key in c1.special ==>
      forall k :: k in [NameTypeKey(name, t), NameKey(name), TypeKey(t)] ==>
        (k in c1.special[key] <==> k in c2.special[key]) &&
        (k in c1.special[key] ==> c1.special[key][k] == c2.special[key][k])
    requires t in c1.templates <==> t in c2.templates
    requires t in c1.templates ==> c1.templates[t] == c2.templates[t]
    ensures GetTemplate(c1, t, Some(name), Some(key), drawn) == GetTemplate(c2, t, Some(name), Some(key), drawn)
  {
    if key in c1.special {
      assert NameTypeKey(name, t) in [NameTypeKey(name, t), NameKey(name), TypeKey(t)];
      assert NameKey(name) in [NameTypeKey(name, t), NameKey(name), TypeKey(t)];
      assert TypeKey(t) in [NameTypeKey(name, t), NameKey(name), TypeKey(t)];
    }
  }

  /** A template without the marker comes back verbatim; in particular a
      `$BUILDFILE_DIR$` in it is left for the build file to replace. */
  lemma VerbatimWithoutMarker(cat: Catalogue, t: Type, name: Option<string>, key: Option<string>, drawn: string)
    requires Pick(cat, t, name, key).Some?
    requires !Contains(Pick(cat, t, name, key).value, RANDOM_STRING)
    ensures GetTemplate(cat, t, name, key, drawn) == Success(Pick(cat, t, name, key).value)
  {
    ReplaceAbsent(Pick(cat, t, name, key).value, RANDOM_STRING, "'" + drawn + "'");
  }

  /** templates.has_special_template. */
  predicate HasSpecialTemplate(cat: Catalogue, t: Type, name: string, key: string) {
    key in cat.special &&
    (NameTypeKey(name, t) in cat.special[key] || NameKey(name) in cat.special[key])
  }

  /** A special template exists exactly when the name decides the outcome:
      with one, get_template returns the `(name, T)` or `name` override; without
      one, the result is what it would be with no name at all. */
  lemma HasSpecialTemplateDecides(cat: Catalogue, t: Type, name: string, key: string, drawn: string)
    ensures HasSpecialTemplate(cat, t, name, key) ==>
      exists k :: k in cat.special[key] && (k == NameTypeKey(name, t) || k == NameKey(name)) &&
        GetTemplate(cat, t, Some(name), Some(key), drawn) == Success(Instantiate(cat.special[key][k], drawn))
    ensures !HasSpecialTemplate(cat, t, name, key) ==>
      GetTemplate(cat, t, Some(name), Some(key), drawn) == GetTemplate(cat, t, None, Some(key), drawn)
  {
    if HasSpecialTemplate(cat, t, name, key) {
      var sp := cat.special[key];
      if NameTypeKey(name, t) in sp {
        assert GetTemplate(cat, t, Some(name), Some(key), drawn) == Success(Instantiate(sp[NameTypeKey(name, t)], drawn));
      } else {
        assert GetTemplate(cat, t, Some(name), Some(key), drawn) == Success(Instantiate(sp[NameKey(name)], drawn));
      }
    }
  }
}
