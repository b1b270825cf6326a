/**
  The options normalisation at the top of `initServer`: a caller argument
  that is not an object is replaced by `{}`, the defaults are deep-merged
  under it, and the log level falls back to `'silly'`.
 */
module Options {
  import opened Js

  const DefaultLogLevel := "silly"

  /** The effective options and the level given to the engine's logger. */
  datatype Normalized = Normalized(options: Value, logLevel: Value)

  /** An argument whose `typeof` is not `'object'` is replaced by an empty object. */
  function NormalizeArgument(arg: Value): (r: Value)
    ensures TypeofObject(r)
    ensures TypeofObject(arg) <==> r == arg
    ensures !TypeofObject(arg) ==> r == Obj(map[])
  {
    if TypeofObject(arg) then arg else Obj(map[])
  }

  /** The configured `log.level` when it is truthy, and `'silly'` otherwise. */
  function LogLevel(options: Value): (r: Value)
    ensures Truthy(r)
    ensures Truthy(Get(Get(options, "log"), "level")) <==> r == Get(Get(options, "log"), "level")
    ensures !Truthy(Get(Get(options, "log"), "level")) ==> r == Str(DefaultLogLevel)
  {
    var level := Get(Get(options, "log"), "level");
    if Truthy(level) then level else Str(DefaultLogLevel)
  }

  /**
    Lines 31-38 of `initServer`. `merge` stands for `mergeDeep`, whose
    behaviour is not part of this model.
   */
  function Normalize(arg: Value, defaults: Value, merge: (Value, Value, Value) -> Value): (r: Normalized)
    ensures !TypeofObject(arg) ==> r.options == merge(Obj(map[]), defaults, Obj(map[]))
    ensures TypeofObject(arg) ==> r.options == merge(Obj(map[]), defaults, arg)
    ensures Truthy(r.logLevel)
    ensures Truthy(Get(Get(r.options, "log"), "level")) ==> r.logLevel == Get(Get(r.options, "log"), "level")
    ensures !Truthy(Get(Get(r.options, "log"), "level")) ==> r.logLevel == Str(DefaultLogLevel)
  {
    var options := merge(Obj(map[]), defaults, NormalizeArgument(arg));
    Normalized(options, LogLevel(options))
  }

  /** The contract assumed of `mergeDeep`: merging an empty override onto `{}` copies the defaults. */
  ghost predicate EmptyOverrideKeepsDefaults(merge: (Value, Value, Value) -> Value) {
    forall defaults :: merge(Obj(map[]), defaults, Obj(map[])) == defaults
  }

  /** A non-object argument yields the defaults and their log level (or `'silly'`). */
  lemma NonObjectArgumentYieldsDefaults(arg: Value, defaults: Value, merge: (Value, Value, Value) -> Value)
    requires !TypeofObject(arg)
    requires EmptyOverrideKeepsDefaults(merge)
    ensures Normalize(arg, defaults, merge).options == defaults
    ensures Normalize(arg, defaults, merge).logLevel ==
              if Truthy(Get(Get(defaults, "log"), "level")) then Get(Get(defaults, "log"), "level")
              else Str(DefaultLogLevel)
  {
  }
}
