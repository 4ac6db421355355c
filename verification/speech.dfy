/** The text-to-speech flow of src/ai/flows/provide-text-to-speech.ts: it
    takes the media the speech model returns, cuts the base64 payload out of
    its data URL, wraps the decoded PCM in a WAV container and returns it as
    a WAV data URI. The model call, base64 decoding and WAV encoding are
    parameters. */
module Speech {
  import opened Wrappers
  import opened Strings

  const WavDataUriPrefix := "data:audio/wav;base64,"
  const NoMediaMessage := "no media returned"

  /** The `media` part of the model's answer; only its URL is used. */
  datatype Media = Media(url: string)

  /** The header settings `toWav` passes to the WAV writer. */
  datatype WavFormat = WavFormat(channels: int, sampleRate: int, bitDepth: int)

  /** The flow's result, `{ media: <data URI> }`. */
  datatype SpeechOutput = SpeechOutput(media: string)

  /** `s.indexOf(c)`: the position of the first `c` in `s`, or -1. */
  function IndexOf(s: string, c: char): (r: int)
    ensures -1 <= r < |s|
    ensures r == -1 <==> c !in s
    ensures r >= 0 ==> s[r] == c && c !in s[..r]
    decreases |s|
  {
    if |s| == 0 then -1
    else if s[0] == c then 0
    else
      var k := IndexOf(s[1..], c);
      assert s == [s[0]] + s[1..];
      if k == -1 then -1
      else
        assert s[..k + 1] == [s[0]] + s[1..][..k];
        k + 1
  }

  /** `url.substring(url.indexOf(',') + 1)`: the text after the first comma,
      or the whole URL when it has none. */
  function Payload(url: string): (p: string)
    ensures |p| <= |url| && p == url[|url| - |p|..]
    ensures ',' in url ==> |p| < |url| && url[|url| - |p| - 1] == ',' && ',' !in url[..|url| - |p| - 1]
    ensures ',' !in url ==> p == url
  {
    url[IndexOf(url, ',') + 1..]
  }

  /** A data URL whose header holds no comma gives back its payload. */
  lemma PayloadRoundTrip(header: string, payload: string)
    requires ',' !in header
    ensures Payload(header + "," + payload) == payload
  {
    var url := header + "," + payload;
    var r := IndexOf(url, ',');
    assert url[|header|] == ',';
    assert url[..|header|] == header;
    assert r <= |header| ==> url[..r] == header[..r];
    assert r == |header|;
    assert url[r + 1..] == payload;
  }

  /** `toWav(pcmData, channels = 1, rate = 24000, sampleWidth = 2)`: the
      writer settings, with the bit depth taken from the sample width in
      bytes. */
  function ToWavFormat(channels: int := 1, rate: int := 24000, sampleWidth: int := 2): (f: WavFormat)
    ensures f.channels == channels && f.sampleRate == rate
    ensures f.bitDepth == sampleWidth * 8
  {
    WavFormat(channels, rate, sampleWidth * 8)
  }

  /** The defaults describe mono 24 kHz audio with 16-bit samples. */
  lemma DefaultWavFormat()
    ensures ToWavFormat() == WavFormat(1, 24000, 16)
  {
  }

  /** The flow body after the model call. `media` is what the model
      returned; `decodeBase64` stands for `Buffer.from(_, 'base64')` and
      `encodeWav` for `toWav`, which produces the base64 text of the WAV
      file. Without media the flow fails with "no media returned";
      otherwise it returns a WAV data URI whose audio is the payload after
      the URL's first comma, encoded with the default format. */
  function Flow(media: Option<Media>, decodeBase64: string -> seq<bv8>, encodeWav: (seq<bv8>, WavFormat) -> string)
    : (r: Result<SpeechOutput, string>)
    ensures r.Failure? <==> media.None?
    ensures r.Failure? ==> r.error == NoMediaMessage
    ensures r.Success? ==>
      && StartsWith(r.value.media, WavDataUriPrefix)
      && r.value.media[|WavDataUriPrefix|..] == encodeWav(decodeBase64(Payload(media.value.url)), WavFormat(1, 24000, 16))
  {
    if media.None? then Failure(NoMediaMessage)
    else
      var audioBuffer := decodeBase64(Payload(media.value.url));
      var uri := WavDataUriPrefix + encodeWav(audioBuffer, ToWavFormat());
      assert uri[..|WavDataUriPrefix|] == WavDataUriPrefix;
      Success(SpeechOutput(uri))
  }

  /** For a model answer `header,payload` the audio encoded is the decoded
      payload. */
  lemma FlowEncodesPayload(header: string, payload: string, decodeBase64: string -> seq<bv8>,
                           encodeWav: (seq<bv8>, WavFormat) -> string)
    requires ',' !in header
    ensures Flow(Some(Media(header + "," + payload)), decodeBase64, encodeWav)
            == Success(SpeechOutput(WavDataUriPrefix + encodeWav(decodeBase64(payload), WavFormat(1, 24000, 16))))
  {
    PayloadRoundTrip(header, payload);
  }
}
