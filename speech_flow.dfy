/**
 * The text-to-speech flow: choose a voice of the other gender, take the
 * base64 payload out of the returned media data URI, and wrap the transcoded
 * audio in a WAV data URI. The hosted model and the WAV transcoder are
 * parameters.
 */
module SpeechFlow {
  import opened Wrappers
  import opened Types
  import opened JsStrings

  /** The two prebuilt voices the flow chooses between, named as the model knows them. */
  datatype Voice = Rigel | Vega

  datatype SpeechError = NoMedia

  /** The media part of the model's answer: a data URI. */
  datatype Media = Media(url: string)

  /** A female player hears the Rigel voice; anyone else hears Vega. */
  function VoiceFor(gender: Gender): (v: Voice)
    ensures v == Rigel <==> gender == Female
  {
    if gender == Female then Rigel else Vega
  }

  /** url.substring(url.indexOf(',') + 1). */
  function Payload(url: string): string
  {
    url[IndexOf(url, ',') + 1..]
  }

  /** The payload is everything after the first comma, or the whole URL when it has none. */
  lemma PayloadAfterFirstComma(url: string)
    ensures ',' !in url ==> Payload(url) == url
    ensures ',' in url ==> exists k :: 0 <= k < |url| && url[k] == ',' && ',' !in url[..k] && Payload(url) == url[k + 1..]
  {
    if ',' in url {
      var k := IndexOf(url, ',');
      assert url[k] == ',' && ',' !in url[..k];
    }
  }

  const WavPrefix: string := "data:audio/wav;base64,"

  /** The WAV data URI around base64-encoded audio. */
  function AudioDataUri(wavBase64: string): (r: string)
    ensures |r| == |WavPrefix| + |wavBase64| && r[..|WavPrefix|] == WavPrefix && r[|WavPrefix|..] == wavBase64
  {
    WavPrefix + wavBase64
  }

  /** Taking the payload of a WAV data URI gives back the encoded audio, which as base64 has no comma. */
  lemma {:induction false} PayloadOfAudioDataUri(wavBase64: string)
    ensures ',' !in wavBase64 ==> Payload(AudioDataUri(wavBase64)) == wavBase64
  {
    if ',' in wavBase64 { return; }
    var u := AudioDataUri(wavBase64);
    var k := |WavPrefix| - 1;
    assert u[k] == ',';
    assert forall i :: 0 <= i < k ==> u[i] == WavPrefix[i];
    assert ',' !in u[..k];
    assert IndexOf(u, ',') == k;
  }

  /**
   * The flow. `media` is what the model returned for the chosen voice and
   * `toWav` the transcoder from the base64 payload to base64 WAV.
   */
  function Run(text: string, gender: Gender, media: Voice -> Option<Media>, toWav: string -> string): (r: Result<string, SpeechError>)
    ensures r.Err? <==> media(VoiceFor(gender)).None?
    ensures r.Ok? ==>
              var wav := toWav(Payload(media(VoiceFor(gender)).value.url));
              && |r.value| >= |WavPrefix| && r.value[..|WavPrefix|] == WavPrefix && r.value[|WavPrefix|..] == wav
              && (',' !in wav ==> Payload(r.value) == wav)
  {
    match media(VoiceFor(gender))
    case None => Err(NoMedia)
    case Some(m) =>
      var wav := toWav(Payload(m.url));
      PayloadOfAudioDataUri(wav);
      Ok(AudioDataUri(wav))
  }
}
