/**
 * The three-level option lookup of `AsyncEventChannel#getOption`
 * (identical in src/index.ts and src/index.js): the per-type options map
 * wins, then the instance options, then the class defaults.
 */
module ChannelOptions {
  import opened Wrappers

  datatype Key = IsEmitCache | IsEmitOnce | IsOnOnce

  /**
   * An options object. `None` means the object has no own property of that
   * name (`hasOwnProperty` is false); `Some(b)` means it has one, whatever its
   * truthiness `b`.
   */
  datatype Opts = Opts(isEmitCache: Option<bool>, isEmitOnce: Option<bool>, isOnOnce: Option<bool>)

  /** `{}`: no own properties, as used for a missing `options` or map entry. */
  const Empty := Opts(None, None, None)

  function Own(o: Opts, key: Key): Option<bool>
  {
    match key
    case IsEmitCache => o.isEmitCache
    case IsEmitOnce => o.isEmitOnce
    case IsOnOnce => o.isOnOnce
  }

  /** `AsyncEventChannel.defaultOptions`. */
  function Default(key: Key): (b: bool)
    ensures b <==> key == IsEmitCache
  {
    match key
    case IsEmitCache => true
    case IsEmitOnce => false
    case IsOnOnce => false
  }

  /** `this.#optionsMap.get(type) || {}`. */
  function PerType<T>(optionsMap: map<T, Opts>, ty: T): Opts
  {
    if ty in optionsMap then optionsMap[ty] else Empty
  }

  /** `#getOption(type, key)`. */
  function GetOption<T>(options: Opts, optionsMap: map<T, Opts>, ty: T, key: Key): (b: bool)
    ensures ty in optionsMap && Own(optionsMap[ty], key).Some? ==> b == Own(optionsMap[ty], key).value
    ensures (ty !in optionsMap || Own(optionsMap[ty], key).None?) && Own(options, key).Some? ==>
              b == Own(options, key).value
    ensures (ty !in optionsMap || Own(optionsMap[ty], key).None?) && Own(options, key).None? ==>
              b == Default(key)
  {
    var level2 := PerType(optionsMap, ty);
    if Own(level2, key).Some? then Own(level2, key).value
    else if Own(options, key).Some? then Own(options, key).value
    else Default(key)
  }

  /** An entry of the per-ty map only affects the lookups of its own ty. */
  lemma PerTypeEntryIsLocal<T>(options: Opts, optionsMap: map<T, Opts>, t: T, o: Opts, ty: T, key: Key)
    requires ty != t
    ensures GetOption(options, optionsMap[t := o], ty, key) == GetOption(options, optionsMap, ty, key)
  {
  }

  /** With nothing configured, every lookup yields the default. */
  lemma NothingConfiguredMeansDefaults<T>(ty: T, key: Key)
    ensures GetOption(Empty, map[], ty, key) == Default(key)
  {
  }
}
