/**
 * The effects coordinator: the per-colour store of effect parameters (vibrato, tremolo, reverb,
 * delay, phaser) that the effect dials write into and the audio and animation engines read from.
 * Each colour maps effect names to parameter records, created from the defaults on first use.
 */
module EffectsCoordinator {
  import opened Wrappers

  /** `Record<string, number>`: the parameters of one effect. */
  type EffectParams = map<string, real>

  /** The effects of one colour, by effect name. */
  type ColorEffects = map<string, EffectParams>

  /** The effect settings a timbre of the store may still carry from before the coordinator existed. */
  datatype Timbre = Timbre(vibrato: Option<EffectParams>, tremelo: Option<EffectParams>)

  /** The default configuration of every effect. */
  function DefaultEffects(): ColorEffects
  {
    map[
      "vibrato" := map["speed" := 0.0, "span" := 0.0],
      "tremolo" := map["speed" := 0.0, "span" := 0.0],
      "reverb" := map["roomSize" := 0.0, "decay" := 0.0, "wet" := 10.0],
      "delay" := map["time" := 0.0, "feedback" := 0.0, "wet" := 15.0],
      "phaser" := map["rate" := 50.0, "depth" := 75.0, "stages" := 6.0]
    ]
  }

  /** `cloneDefault(effectType)`: the defaults of a known effect, an empty record for any other. */
  function CloneDefault(effectType: string): (r: EffectParams)
    ensures effectType in DefaultEffects() ==> r == DefaultEffects()[effectType]
    ensures effectType !in DefaultEffects() ==> r == map[]
  {
    if effectType in DefaultEffects() then DefaultEffects()[effectType] else map[]
  }

  /**
   * The effects a colour starts with: a copy of every default, with the vibrato and the tremolo
   * (spelt `tremelo` on the timbre) taken over from the colour's timbre when it has them.
   */
  function FreshColorEffects(timbre: Option<Timbre>): (r: ColorEffects)
    ensures r.Keys == DefaultEffects().Keys
    ensures forall e :: e in r && e != "vibrato" && e != "tremolo" ==> r[e] == DefaultEffects()[e]
    ensures r["vibrato"] == if timbre.Some? && timbre.value.vibrato.Some? then timbre.value.vibrato.value
                            else DefaultEffects()["vibrato"]
    ensures r["tremolo"] == if timbre.Some? && timbre.value.tremelo.Some? then timbre.value.tremelo.value
                            else DefaultEffects()["tremolo"]
  {
    var defaults := DefaultEffects();
    match timbre
    case None => defaults
    case Some(t) =>
      var withVibrato := if t.vibrato.Some? then defaults["vibrato" := t.vibrato.value] else defaults;
      if t.tremelo.Some? then withVibrato["tremolo" := t.tremelo.value] else withVibrato
  }

  /** The parameters after `initializeColorEffects(color)`: an unseen colour gets its fresh effects. */
  function Initialized(parameters: map<string, ColorEffects>, color: string, timbre: Option<Timbre>): (r: map<string, ColorEffects>)
    ensures color in r && r.Keys == parameters.Keys + {color}
    ensures color in parameters ==> r == parameters
    ensures color !in parameters ==> r[color] == FreshColorEffects(timbre)
    ensures forall c :: c in parameters ==> r[c] == parameters[c]
  {
    if color in parameters then parameters else parameters[color := FreshColorEffects(timbre)]
  }

  /**
   * Initializing is idempotent: once a colour has effects, initializing it again changes nothing,
   * whatever its timbre now carries.
   */
  lemma InitializeIdempotent(parameters: map<string, ColorEffects>, color: string, timbre: Option<Timbre>, later: Option<Timbre>)
    ensures Initialized(Initialized(parameters, color, timbre), color, later) == Initialized(parameters, color, timbre)
  {
  }

  /** `getEffectParameters(color, effectType)`: a copy of the colour's effect, or of the defaults when there is none. */
  function GetEffectParameters(parameters: map<string, ColorEffects>, color: string, effectType: string): (r: EffectParams)
    ensures color in parameters && effectType in parameters[color] ==> r == parameters[color][effectType]
    ensures !(color in parameters && effectType in parameters[color]) ==> r == CloneDefault(effectType)
  {
    if color in parameters && effectType in parameters[color] then parameters[color][effectType]
    else CloneDefault(effectType)
  }

  /** `getAllEffectParameters(color)`: a copy of the colour's effects, or of all defaults for an unseen colour. */
  function GetAllEffectParameters(parameters: map<string, ColorEffects>, color: string): (r: ColorEffects)
    ensures color in parameters ==> r == parameters[color]
    ensures color !in parameters ==> r == DefaultEffects()
  {
    if color in parameters then parameters[color] else DefaultEffects()
  }

  /**
   * The parameters after `updateParameter(effectType, parameter, value, color)`: nothing for
   * the empty colour; otherwise the colour is initialized, the effect is created from its
   * defaults if missing, and its one parameter is set.
   */
  function Updated(parameters: map<string, ColorEffects>, effectType: string, parameter: string, value: real,
                   color: string, timbre: Option<Timbre>): map<string, ColorEffects>
  {
    if color == "" then parameters
    else
      var initialized := Initialized(parameters, color, timbre);
      var colorEffects := initialized[color];
      var targetEffect := if effectType in colorEffects then colorEffects[effectType] else CloneDefault(effectType);
      initialized[color := colorEffects[effectType := targetEffect[parameter := value]]]
  }

  /** Updating with no colour changes nothing. */
  lemma UpdateWithoutColor(parameters: map<string, ColorEffects>, effectType: string, parameter: string, value: real,
                           timbre: Option<Timbre>)
    ensures Updated(parameters, effectType, parameter, value, "", timbre) == parameters
  {
  }

  /**
   * An update reads back as the new value, the other parameters of the effect keep what the
   * initialized colour had for them, and every other effect of every colour reads as it did once
   * the colour was initialized.
   */
  lemma UpdateChangesOneParameter(parameters: map<string, ColorEffects>, effectType: string, parameter: string,
                                  value: real, color: string, timbre: Option<Timbre>)
    requires color != ""
    ensures var after := Updated(parameters, effectType, parameter, value, color, timbre);
      var before := Initialized(parameters, color, timbre);
      after.Keys == before.Keys &&
      GetEffectParameters(after, color, effectType) ==
        GetEffectParameters(before, color, effectType)[parameter := value] &&
      GetEffectParameters(after, color, effectType)[parameter] == value &&
      (forall c, e :: (c, e) != (color, effectType) ==>
        GetEffectParameters(after, c, e) == GetEffectParameters(before, c, e))
  {
    var after := Updated(parameters, effectType, parameter, value, color, timbre);
    var before := Initialized(parameters, color, timbre);
    forall c, e | (c, e) != (color, effectType)
      ensures GetEffectParameters(after, c, e) == GetEffectParameters(before, c, e)
    {
      if c == color {
        assert e != effectType;
        assert (e in after[c]) <==> (e in before[c]);
      }
    }
  }

  /** An update on a colour that already has the effect is visible only in that one parameter. */
  lemma UpdateOnInitializedColor(parameters: map<string, ColorEffects>, effectType: string, parameter: string,
                                 value: real, color: string, timbre: Option<Timbre>)
    requires color != "" && color in parameters && effectType in parameters[color]
    ensures var after := Updated(parameters, effectType, parameter, value, color, timbre);
      after.Keys == parameters.Keys &&
      after[color][effectType] == parameters[color][effectType][parameter := value] &&
      (forall c :: c in parameters && c != color ==> after[c] == parameters[c]) &&
      (forall e :: e in parameters[color] && e != effectType ==> after[color][e] == parameters[color][e])
  {
  }

  /** The parameters after `resetColorEffects(color)`: the colour has a fresh copy of every default. */
  function Reset(parameters: map<string, ColorEffects>, color: string): (r: map<string, ColorEffects>)
    ensures r.Keys == parameters.Keys + {color} && r[color] == DefaultEffects()
    ensures forall c :: c in parameters && c != color ==> r[c] == parameters[c]
  {
    parameters[color := DefaultEffects()]
  }

  /** After a reset every effect of the colour reads as its defaults, as for a colour never seen. */
  lemma ResetRestoresDefaults(parameters: map<string, ColorEffects>, color: string, effectType: string)
    ensures GetEffectParameters(Reset(parameters, color), color, effectType) == CloneDefault(effectType)
    ensures GetEffectParameters(Reset(parameters, color), color, effectType) ==
            GetEffectParameters(map[], color, effectType)
  {
  }

  /** The coordinator: the effect parameters of every colour seen so far. */
  class Coordinator {
    var effectParameters: map<string, ColorEffects>

    /** A coordinator that has seen no colour. */
    constructor ()
      ensures effectParameters == map[]
    {
      effectParameters := map[];
    }

    /**
     * `initializeColorEffects(color)`, with `timbre` the colour's entry of the store's timbres:
     * an unseen colour gets a copy of the defaults, with the timbre's vibrato and tremolo.
     */
    method InitializeColorEffects(color: string, timbre: Option<Timbre>)
      modifies this
      ensures effectParameters == Initialized(old(effectParameters), color, timbre)
    {
      if color !in effectParameters {
        var colorEffects := DefaultEffects();
        if timbre.Some? {
          if timbre.value.vibrato.Some? {
            colorEffects := colorEffects["vibrato" := timbre.value.vibrato.value];
          }
          if timbre.value.tremelo.Some? {
            colorEffects := colorEffects["tremolo" := timbre.value.tremelo.value];
          }
        }
        effectParameters := effectParameters[color := colorEffects];
      }
    }

    /**
     * `updateParameter(effectType, parameter, value, color)`: with no colour nothing changes;
     * otherwise the colour is initialized, the effect created from its defaults if missing, and
     * the parameter set.
     */
    method UpdateParameter(effectType: string, parameter: string, value: real, color: string, timbre: Option<Timbre>)
      modifies this
      ensures effectParameters == Updated(old(effectParameters), effectType, parameter, value, color, timbre)
    {
      if color == "" {
        return;
      }
      InitializeColorEffects(color, timbre);
      var colorEffects := effectParameters[color];
      var targetEffect := if effectType in colorEffects then colorEffects[effectType] else CloneDefault(effectType);
      targetEffect := targetEffect[parameter := value];
      effectParameters := effectParameters[color := colorEffects[effectType := targetEffect]];
    }

    /** `resetColorEffects(color)`: the colour's effects are replaced by a fresh copy of the defaults. */
    method ResetColorEffects(color: string)
      modifies this
      ensures effectParameters == Reset(old(effectParameters), color)
    {
      var colorEffects := map[];
      colorEffects := colorEffects["vibrato" := DefaultEffects()["vibrato"]];
      colorEffects := colorEffects["tremolo" := DefaultEffects()["tremolo"]];
      colorEffects := colorEffects["reverb" := DefaultEffects()["reverb"]];
      colorEffects := colorEffects["delay" := DefaultEffects()["delay"]];
      colorEffects := colorEffects["phaser" := DefaultEffects()["phaser"]];
      effectParameters := effectParameters[color := colorEffects];
    }

    /** `dispose`: every colour is forgotten. */
    method Dispose()
      modifies this
      ensures effectParameters == map[]
    {
      effectParameters := map[];
    }
  }
}
