// The scout bot's cooldown: after an event of one type for one symbol, the
// same pair is held back for a number of minutes. Times are seconds on one
// clock; the current time, which the source reads from the system clock, is
// a parameter.
module Cooldown {
  import opened Wrappers
  import ConfigLoaders
  import ED = EventDefinitions

  /** The default hold, in minutes. */
  const DefaultMinutes: real := 10.0

  /** A (symbol, event type) pair, the cooldown key. */
  type Key = (string, ED.EventType)

  /** The minutes elapsed from `last` to `now`. */
  function ElapsedMinutes(last: real, now: real): real
  {
    (now - last) / 60.0
  }

  /** A record made at `last` still holds at `now`. */
  predicate Active(last: real, now: real, minutes: real)
  {
    ElapsedMinutes(last, now) < minutes
  }

  /** In seconds: a record holds exactly while less than `minutes` times
      sixty seconds have passed. */
  lemma ActiveInSeconds(last: real, now: real, minutes: real)
    ensures Active(last, now, minutes) <==> now - last < minutes * 60.0
  {
    assert (now - last) == ElapsedMinutes(last, now) * 60.0;
  }

  /** The cooldown answer for `key` over the map `m`. */
  predicate Cooling(m: map<Key, real>, key: Key, now: real, minutes: real)
  {
    key in m && Active(m[key], now, minutes)
  }

  /** The records that have not expired at `now`. */
  function Unexpired(m: map<Key, real>, now: real, minutes: real): (r: map<Key, real>)
    ensures r.Keys <= m.Keys
    ensures forall k :: k in r ==> r[k] == m[k]
    ensures forall k :: k in m ==> (k in r <==> Active(m[k], now, minutes))
  {
    map k | k in m && Active(m[k], now, minutes) :: m[k]
  }

  /** The hold configured under `cooldown.minutes`, 10 when it is absent,
      not a number, or the section is not a mapping. */
  function ConfiguredMinutes(thresholds: map<string, ConfigLoaders.Conf>): real
  {
    ConfigLoaders.RealOr(ConfigLoaders.Section(thresholds, "cooldown"), "minutes", DefaultMinutes)
  }

  /** Without a configuration file, the hold is the default ten minutes. */
  lemma DefaultConfiguredMinutes()
    ensures ConfiguredMinutes(ConfigLoaders.LoadEventThresholds(ConfigLoaders.NoFile)) == DefaultMinutes
  {
  }

  class CooldownManager {
    const cooldownMinutes: real
    /** The last time each (symbol, type) pair fired. */
    var cooldownMap: map<Key, real>

    /** `__init__`: the given hold, or the configured one. */
    constructor(cooldownMinutes: Option<real>, file: ConfigLoaders.YamlFile)
      ensures this.cooldownMinutes ==
        if cooldownMinutes.Some? then cooldownMinutes.value
        else ConfiguredMinutes(ConfigLoaders.LoadEventThresholds(file))
      ensures cooldownMap == map[]
    {
      this.cooldownMinutes := if cooldownMinutes.Some? then cooldownMinutes.value
                              else ConfiguredMinutes(ConfigLoaders.LoadEventThresholds(file));
      cooldownMap := map[];
    }

    /** `is_cooldown`: false for a pair never recorded; otherwise whether
        fewer than the configured minutes have passed since its record. */
    predicate IsCooldown(symbol: string, eventType: ED.EventType, now: real)
      reads this
      ensures IsCooldown(symbol, eventType, now) <==>
        (symbol, eventType) in cooldownMap && now - cooldownMap[(symbol, eventType)] < cooldownMinutes * 60.0
    {
      var key := (symbol, eventType);
      if key !in cooldownMap then false
      else
        ActiveInSeconds(cooldownMap[key], now, cooldownMinutes);
        Active(cooldownMap[key], now, cooldownMinutes)
    }

    /** `record_event`: the pair's last time becomes `occurredAt`; no other
        pair changes. */
    method RecordEvent(symbol: string, eventType: ED.EventType, occurredAt: real)
      modifies this
      ensures cooldownMap == old(cooldownMap)[(symbol, eventType) := occurredAt]
    {
      cooldownMap := cooldownMap[(symbol, eventType) := occurredAt];
    }

    /** `cleanup_expired`: every record whose hold has run out at `now` is
        deleted and the rest are kept as they were. */
    method CleanupExpired(now: real)
      modifies this
      ensures cooldownMap == Unexpired(old(cooldownMap), now, cooldownMinutes)
    {
      var expired := set k | k in cooldownMap && !Active(cooldownMap[k], now, cooldownMinutes);
      ghost var start := cooldownMap;
      var todo := expired;
      while todo != {}
        invariant todo <= expired
        invariant cooldownMap == start - (expired - todo)
        decreases |todo|
      {
        var key :| key in todo;
        cooldownMap := cooldownMap - {key};
        todo := todo - {key};
      }
      ghost var goal := Unexpired(start, now, cooldownMinutes);
      assert cooldownMap == start - expired;
      forall k | k in start ensures k in expired <==> !Active(start[k], now, cooldownMinutes) {
      }
      assert cooldownMap.Keys == goal.Keys;
      assert forall k :: k in goal ==> cooldownMap[k] == goal[k];
    }

    /** `clear`. */
    method Clear()
      modifies this
      ensures cooldownMap == map[]
    {
      cooldownMap := map[];
    }
  }

  /** A pair never recorded is never held back. */
  lemma NeverRecordedNotCooling(m: map<Key, real>, key: Key, now: real, minutes: real)
    requires key !in m
    ensures !Cooling(m, key, now, minutes)
  {
  }

  /** Right after a record at `now`, the pair is held back exactly when the
      hold is positive, and every other pair answers as before. */
  lemma RecordStartsCooldown(m: map<Key, real>, key: Key, now: real, minutes: real)
    ensures Cooling(m[key := now], key, now, minutes) <==> minutes > 0.0
    ensures forall other :: other != key ==>
      (Cooling(m[key := now], other, now, minutes) <==> Cooling(m, other, now, minutes))
  {
    ActiveInSeconds(now, now, minutes);
  }

  /** The hold runs out: from `minutes` after the record on, the pair is no
      longer held back, and while it holds, less than that has passed. */
  lemma CooldownExpires(m: map<Key, real>, key: Key, now: real, minutes: real)
    requires key in m
    ensures now >= m[key] + minutes * 60.0 ==> !Cooling(m, key, now, minutes)
    ensures Cooling(m, key, now, minutes) ==> now < m[key] + minutes * 60.0
  {
    ActiveInSeconds(m[key], now, minutes);
  }

  /** Cleaning up at `now` changes no answer `is_cooldown` gives at `now`,
      removes exactly the pairs no longer held back, and cleaning twice
      removes nothing more. */
  lemma CleanupPreservesAnswers(m: map<Key, real>, now: real, minutes: real)
    ensures forall key :: Cooling(Unexpired(m, now, minutes), key, now, minutes) <==> Cooling(m, key, now, minutes)
    ensures forall key :: key in Unexpired(m, now, minutes) <==> Cooling(m, key, now, minutes)
    ensures Unexpired(Unexpired(m, now, minutes), now, minutes) == Unexpired(m, now, minutes)
  {
  }
}
