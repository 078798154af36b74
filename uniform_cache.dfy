/** The uniform location cache and the setter guard shared by the render
    shader and the compute shader: a name is asked of the driver at most once,
    the answer is kept even when it is -1 ("no such uniform"), and a setter
    issues its GL call only for a location other than -1. */
module UniformCache {

  /** The result of one cache lookup: the location returned, the cache
      afterwards, and whether the driver was asked. */
  datatype Lookup = Lookup(location: int, cache: map<string, int>, queried: bool)

  /** A lookup of `name`, where `driverLocation` is what
      `glGetUniformLocation` answers if it is asked. */
  function CacheLookup(cache: map<string, int>, name: string, driverLocation: int): Lookup
  {
    if name in cache then Lookup(cache[name], cache, false)
    else Lookup(driverLocation, cache[name := driverLocation], true)
  }

  /** After a lookup the name is cached with the value returned; the driver
      is asked only for an uncached name; no other name changes. */
  lemma LookupCaches(cache: map<string, int>, name: string, driverLocation: int)
    ensures var r := CacheLookup(cache, name, driverLocation);
      && name in r.cache && r.cache[name] == r.location
      && r.cache.Keys == cache.Keys + {name}
      && (forall n :: n in cache && n != name ==> r.cache[n] == cache[n])
      && (r.queried <==> name !in cache)
      && (driverLocation == -1 && name !in cache ==> r.location == -1 && r.cache[name] == -1)
  {
  }

  /** Repeated lookups of a name return the first answer without asking the
      driver again, whatever it would answer, and leave the cache as it
      was. */
  lemma LookupStable(cache: map<string, int>, name: string, first: int, second: int)
    ensures var r1 := CacheLookup(cache, name, first);
            var r2 := CacheLookup(r1.cache, name, second);
      r2.location == r1.location && !r2.queried && r2.cache == r1.cache
  {
  }

  /** The values the setters upload. Floats are modelled as reals; no
      arithmetic is done on them. */
  datatype UniformValue =
    | IntValue(i: int)
    | FloatValue(f: real)
    | IntArrayValue(count: int, data: seq<int>)
    | Mat4Value(m: seq<real>)
    | Vec2Value(x: real, y: real)
    | Vec3Value(x: real, y: real, z: real)
    | Vec4Value(x: real, y: real, z: real, w: real)
    | TextureValue(textureId: nat, slot: nat)

  /** A GL call a setter issues: one `glUniform*` upload, or binding a
      texture to a unit. */
  datatype GlCall = Uniform(location: int, value: UniformValue) | BindTexture(textureId: nat, slot: nat)

  /** What a setter issues for the location it looked up. The texture setter
      uploads the unit number and binds the texture to that unit. */
  function SetterCalls(location: int, value: UniformValue): seq<GlCall>
  {
    if location == -1 then []
    else if value.TextureValue? then [Uniform(location, IntValue(value.slot)), BindTexture(value.textureId, value.slot)]
    else [Uniform(location, value)]
  }

  /** A setter does nothing at all for an unknown uniform, and otherwise
      uploads exactly once, to that location. */
  lemma SetterGuard(location: int, value: UniformValue)
    ensures SetterCalls(location, value) == [] <==> location == -1
    ensures location != -1 ==>
              && SetterCalls(location, value)[0].Uniform?
              && SetterCalls(location, value)[0].location == location
              && (forall c :: c in SetterCalls(location, value) && c.Uniform? ==> c == SetterCalls(location, value)[0])
  {
  }
}
