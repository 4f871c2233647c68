/** compression.py: payload envelopes around gzip and base64. */
module Compression {
  import opened Wrappers
  import opened Json
  import opened Library

  const PAYLOAD: Text := Ascii("_compressed_payload")
  const CODEC: Text := Ascii("_compression")
  const GZIP: Text := Ascii("gzip")

  datatype Setting = Setting(codec: string, threshold: int)

  function Envelope(env: Env, payload: Json): Json {
    Obj(Field(PAYLOAD, Str(env.gzip(env.dumps(payload))), Field(CODEC, Str(GZIP), NoFields)))
  }

  predicate Compresses(env: Env, payload: Json, c: Setting) {
    c.codec == "gzip" && |env.dumps(payload)| > c.threshold
  }

  function Compress(env: Env, payload: Json, c: Setting): Json {
    if c.codec == "none" then payload
    else if |env.dumps(payload)| <= c.threshold then payload
    else if c.codec == "gzip" then Envelope(env, payload)
    else payload
  }

  /** What an envelope carries; None for anything that is not an envelope or does not decode. */
  function Carried(env: Env, stored: Json): Option<Json> {
    if !stored.Obj? then None else
      match (Lookup(stored.fields, PAYLOAD), Lookup(stored.fields, CODEC))
      case (Some(Str(text)), Some(Str(codec))) =>
        if codec != GZIP then None else
          (match env.gunzip(text) case None => None case Some(s) => env.loads(s))
      case _ => None
  }

  function Decompress(env: Env, stored: Json): Json {
    match Carried(env, stored) case None => stored case Some(j) => j
  }

  /** What is stored: with codec gzip a payload whose text is longer than the threshold becomes an object of its
      compressed text and the codec's name; any other payload, and any payload under another codec, stays as it is. */
  lemma StoredForm(env: Env, payload: Json, codec: string, threshold: int)
    ensures Compress(env, payload, Setting(codec, threshold)) ==
      if codec == "gzip" && |env.dumps(payload)| > threshold then
        Obj(Field(Ascii("_compressed_payload"), Str(env.gzip(env.dumps(payload))),
          Field(Ascii("_compression"), Str(Ascii("gzip")), NoFields)))
      else payload
  {
  }

  /** What is unwrapped on reading: an object that names gzip as its codec and whose compressed text decodes to a
      dumped value. Everything else is returned as it is stored. */
  lemma UnwrapsExactly(env: Env, stored: Json, j: Json)
    ensures Carried(env, stored) == Some(j) <==>
      && stored.Obj? && Lookup(stored.fields, Ascii("_compression")) == Some(Str(Ascii("gzip")))
      && exists x: Text :: Lookup(stored.fields, Ascii("_compressed_payload")) == Some(Str(x))
           && env.gunzip(x).Some? && env.loads(env.gunzip(x).value) == Some(j)
    ensures Carried(env, stored).None? ==> Decompress(env, stored) == stored
  {
    if stored.Obj? && Lookup(stored.fields, PAYLOAD).Some? && Lookup(stored.fields, PAYLOAD).value.Str? {
      var x := Lookup(stored.fields, PAYLOAD).value.s;
      assert Lookup(stored.fields, Ascii("_compressed_payload")) == Some(Str(x));
    }
  }

  lemma EnvelopeCarries(env: Env, payload: Json)
    requires RoundTrips(env)
    ensures Carried(env, Envelope(env, payload)) == Some(payload)
  {
    assert |PAYLOAD| == 19 && |CODEC| == 12;
    var fs := Envelope(env, payload).fields;
    assert Lookup(fs.rest, CODEC) == Some(Str(GZIP)) && Lookup(fs.rest, PAYLOAD) == None;
    assert Lookup(fs, PAYLOAD) == Some(Str(env.gzip(env.dumps(payload))));
  }

  /** Reading back gives the published payload for every codec and threshold, unless the publisher sent an
      envelope that was stored as it came: that one is unwrapped. */
  lemma CompressionInvisible(env: Env, payload: Json, c: Setting)
    requires RoundTrips(env)
    ensures
      Decompress(env, Compress(env, payload, c)) ==
        if !Compresses(env, payload, c) && Carried(env, payload).Some? then Carried(env, payload).value else payload
  {
    EnvelopeCarries(env, payload);
  }

  /** A payload that is itself an envelope does not survive uncompressed storage. */
  lemma EnvelopeIsUnwrapped(env: Env, inner: Json, threshold: int)
    requires RoundTrips(env)
    ensures Decompress(env, Compress(env, Envelope(env, inner), Setting("none", threshold))) == inner
  {
    EnvelopeCarries(env, inner);
  }

  /** A payload that is not itself a compression envelope. */
  predicate Plain(env: Env, payload: Json) { Carried(env, payload).None? }
}
