/** The use cases that build sound records and presets
    (domain/useCases.ts). The repository, `URL.createObjectURL`,
    `crypto.randomUUID` and `Date.now` are outside the model: the first two
    are passed in as functions, the UUID and clock readings as values. Each
    use case returns the record it builds together with the calls it made,
    in order. */
module UseCases {
  import opened Wrappers
  import opened Types

  // ---------------------------------------------------------------------
  // String helpers
  // ---------------------------------------------------------------------

  /** `toUpperCase` on one character, restricted to the ASCII letters:
      other characters are kept, even letters JavaScript would map. */
  function UpperChar(c: char): (r: char)
    ensures 'a' <= c <= 'z' ==> r as int == c as int - 32
    ensures !('a' <= c <= 'z') ==> r == c
  {
    if 'a' <= c <= 'z' then (c as int - 32) as char else c
  }

  /** `toUpperCase` restricted to ASCII, one character at a time, so the
      length is kept. */
  function Upper(s: string): (r: string)
    ensures |r| == |s|
    ensures forall i :: 0 <= i < |s| ==> r[i] == UpperChar(s[i])
  {
    seq(|s|, i requires 0 <= i < |s| => UpperChar(s[i]))
  }

  /** No lower-case ASCII letter remains. */
  predicate NoLowerCase(s: string)
  {
    forall i :: 0 <= i < |s| ==> !('a' <= s[i] <= 'z')
  }

  /** Upper-casing leaves no lower-case letter, and doing it again changes
      nothing. */
  lemma UpperIdempotent(s: string)
    ensures NoLowerCase(Upper(s))
    ensures Upper(Upper(s)) == Upper(s)
  {
    assert forall i :: 0 <= i < |s| ==> UpperChar(UpperChar(s[i])) == UpperChar(s[i]);
  }

  /** `slice(0, n)`: the first `n` characters, or all of a shorter string. */
  function Take(s: string, n: nat): (r: string)
    ensures |r| == if |s| < n then |s| else n
    ensures r <= s
  {
    if |s| < n then s else s[..n]
  }

  /** `slice(-n)`: the last `n` characters, or all of a shorter string. */
  function Last(s: string, n: nat): (r: string)
    ensures |r| == if |s| < n then |s| else n
    ensures r == s[|s| - |r|..]
  {
    if |s| < n then s else s[|s| - n..]
  }

  /** The length JavaScript reports for a string: a character outside the
      Basic Multilingual Plane is a surrogate pair, two UTF-16 code units. */
  function Utf16Length(s: string): (r: nat)
    ensures r >= |s|
  {
    if s == [] then 0
    else Utf16Length(s[..|s| - 1]) + (if s[|s| - 1] as int >= 0x1_0000 then 2 else 1)
  }

  /** Every character lies in the Basic Multilingual Plane. */
  predicate InBmp(s: string)
  {
    forall i :: 0 <= i < |s| ==> s[i] as int < 0x1_0000
  }

  lemma {:induction false} BmpLength(s: string)
    requires InBmp(s)
    ensures Utf16Length(s) == |s|
  {
    if s != [] {
      BmpLength(s[..|s| - 1]);
    }
  }

  /** On a string inside the Basic Multilingual Plane, `Take` keeps exactly
      the code units `slice(0, n)` keeps. */
  lemma TakeInBmp(s: string, n: nat)
    requires InBmp(s)
    ensures InBmp(Take(s, n))
    ensures Utf16Length(Take(s, n)) == if Utf16Length(s) < n then Utf16Length(s) else n
  {
    BmpLength(s);
    BmpLength(Take(s, n));
  }

  /** Upper-casing keeps a string inside the Basic Multilingual Plane. */
  lemma UpperInBmp(s: string)
    requires InBmp(s)
    ensures InBmp(Upper(s)) && Utf16Length(Upper(s)) == Utf16Length(s)
  {
    BmpLength(s);
    BmpLength(Upper(s));
  }

  function Digit(d: nat): (c: char)
    requires d < 10
    ensures '0' <= c <= '9'
  {
    ('0' as int + d) as char
  }

  /** `toString` on a non-negative integer: its decimal digits, most
      significant first, with no leading zero. */
  function Decimal(n: nat): (r: string)
    ensures |r| >= 1
  {
    if n < 10 then [Digit(n)] else Decimal(n / 10) + [Digit(n % 10)]
  }

  predicate IsDigits(s: string)
  {
    forall i :: 0 <= i < |s| ==> '0' <= s[i] <= '9'
  }

  lemma {:induction false} DecimalIsDigits(n: nat)
    ensures IsDigits(Decimal(n))
  {
    if n >= 10 {
      DecimalIsDigits(n / 10);
    }
  }

  /** The number a string of decimal digits stands for. */
  function DigitsValue(s: string): int
  {
    if s == [] then 0
    else DigitsValue(s[..|s| - 1]) * 10 + (s[|s| - 1] as int - '0' as int)
  }

  function Pow10(k: nat): (r: nat)
    ensures r >= 1
  {
    if k == 0 then 1 else 10 * Pow10(k - 1)
  }

  /** Reading the decimal string back gives the number. */
  lemma {:induction false} DecimalRoundTrip(n: nat)
    ensures DigitsValue(Decimal(n)) == n
  {
    if n >= 10 {
      DecimalRoundTrip(n / 10);
      var s := Decimal(n);
      assert s[..|s| - 1] == Decimal(n / 10);
    }
  }

  /** A number below 10^k prints with at most k digits, and one of at
      least 10^(k-1) with at least k. */
  lemma {:induction false} DecimalLength(n: nat, k: nat)
    ensures n < Pow10(k) && k >= 1 ==> |Decimal(n)| <= k
    ensures k >= 1 && n >= Pow10(k - 1) ==> |Decimal(n)| >= k
  {
    if n >= 10 && k >= 1 {
      DecimalLength(n / 10, k - 1);
    }
  }

  /** The number formed by the low `k` decimal digits of `n`. */
  function LowDigits(n: nat, k: nat): nat
  {
    if k == 0 then 0 else LowDigits(n / 10, k - 1) * 10 + n % 10
  }

  /** The low `k` digits of `n` are `n` modulo 10^k. */
  lemma {:induction false} LowDigitsMod(n: nat, k: nat)
    ensures LowDigits(n, k) == n % Pow10(k)
  {
    if k == 0 {
      assert Pow10(k) == 1;
    } else {
      LowDigitsMod(n / 10, k - 1);
      ModStep(n, Pow10(k - 1));
      assert Pow10(k) == 10 * Pow10(k - 1);
    }
  }

  lemma {:induction false} LowDigitsOfZero(k: nat)
    ensures LowDigits(0, k) == 0
  {
    if k > 0 {
      LowDigitsOfZero(k - 1);
    }
  }

  /** The last `k` characters of a number's decimal string spell its low
      `k` digits. */
  lemma LastDigitsValue(n: nat, k: nat)
    ensures DigitsValue(Last(Decimal(n), k)) == LowDigits(n, k)
  {
    DecimalIsDigits(n);
    DecimalRoundTrip(n);
    LastOfDigits(Decimal(n), k);
  }

  /** A digit string never spells a negative number. */
  lemma {:induction false} DigitsValueNonNegative(s: string)
    requires IsDigits(s)
    ensures DigitsValue(s) >= 0
  {
    if s != [] {
      DigitsValueNonNegative(s[..|s| - 1]);
    }
  }

  /** The last `k` characters of any digit string spell the low `k` digits
      of its value. */
  lemma {:induction false} LastOfDigits(s: string, k: nat)
    requires IsDigits(s)
    ensures DigitsValue(s) >= 0
    ensures DigitsValue(Last(s, k)) == LowDigits(DigitsValue(s), k)
  {
    DigitsValueNonNegative(s);
    if s == [] {
      assert Last(s, k) == [];
      LowDigitsOfZero(k);
    } else if k == 0 {
      assert Last(s, k) == [];
    } else {
      var init, c := s[..|s| - 1], s[|s| - 1];
      assert s == init + [c];
      LastOfDigits(init, k - 1);
      LastOfDigitsStep(init, c, k);
    }
  }

  /** Appending one digit shifts the value by a place and adds that digit
      as the new lowest one. */
  lemma LastOfDigitsStep(init: string, c: char, k: nat)
    requires k >= 1 && '0' <= c <= '9' && DigitsValue(init) >= 0
    requires DigitsValue(Last(init, k - 1)) == LowDigits(DigitsValue(init), k - 1)
    ensures DigitsValue(init + [c]) >= 0
    ensures DigitsValue(Last(init + [c], k)) == LowDigits(DigitsValue(init + [c]), k)
  {
    var d := c as int - '0' as int;
    DigitsValueSnoc(init, c);
    LastSnoc(init, c, k);
    DigitsValueSnoc(Last(init, k - 1), c);
    ShiftedLowDigits(DigitsValue(init), d, k, DigitsValue(Last(init, k - 1)),
                     DigitsValue(Last(init + [c], k)), DigitsValue(init + [c]));
  }

  /** If `x` is `w` followed by digit `d`, where `w` holds the low `k - 1`
      digits of `v`, then `x` holds the low `k` digits of `v` followed by `d`. */
  lemma ShiftedLowDigits(v: nat, d: nat, k: nat, w: int, x: int, y: int)
    requires d < 10 && k >= 1 && w == LowDigits(v, k - 1)
    requires x == w * 10 + d && y == v * 10 + d
    ensures y >= 0 && x == LowDigits(y, k)
  {
    LowDigitsShift(v, d, k);
  }

  /** The low `k` digits of `10v + d` are the low `k - 1` digits of `v`
      followed by `d`. */
  lemma LowDigitsShift(v: nat, d: nat, k: nat)
    requires d < 10 && k >= 1
    ensures LowDigits(v * 10 + d, k) == LowDigits(v, k - 1) * 10 + d
  {
    TenthOf(v, d);
  }

  lemma TenthOf(v: nat, d: nat)
    requires d < 10
    ensures (v * 10 + d) / 10 == v && (v * 10 + d) % 10 == d
  {
  }

  lemma DigitsValueSnoc(u: string, c: char)
    ensures DigitsValue(u + [c]) == DigitsValue(u) * 10 + (c as int - '0' as int)
  {
    assert (u + [c])[..|u|] == u;
  }

  lemma LastSnoc(s: string, c: char, k: nat)
    requires k >= 1
    ensures Last(s + [c], k) == Last(s, k - 1) + [c]
  {
  }

  lemma ModStep(n: nat, m: nat)
    requires m >= 1
    ensures (n / 10 % m) * 10 + n % 10 == n % (10 * m)
  {
    var q := n / 10;
    var d := n % 10;
    var a := q / m;
    var b := q % m;
    assert n == 10 * q + d;
    assert q == m * a + b;
    assert 10 * q == (10 * m) * a + 10 * b;
    assert n == (10 * m) * a + (10 * b + d);
    assert 10 * b + d < 10 * m by {
      assert b <= m - 1;
      assert 10 * b <= 10 * m - 10;
    }
    ModUnique(n, 10 * m, a, 10 * b + d);
  }

  /** Division with remainder has one answer. */
  lemma ModUnique(n: nat, m: nat, a: nat, r: nat)
    requires m >= 1 && r < m && n == m * a + r
    ensures n % m == r
  {
    var a' := n / m;
    var r' := n % m;
    assert n == m * a' + r';
    if a' > a {
      MulStep(m, a' - a);
      MulSplit(m, a, a' - a);
    } else if a' < a {
      MulStep(m, a - a');
      MulSplit(m, a', a - a');
    }
  }

  lemma MulSplit(m: nat, a: nat, t: nat)
    ensures m * (a + t) == m * a + m * t
  {
  }

  lemma MulStep(m: nat, t: nat)
    requires t >= 1
    ensures m * t >= m
  {
  }

  // ---------------------------------------------------------------------
  // Names and descriptions
  // ---------------------------------------------------------------------

  /** The name of a generated sound: the upper-cased prompt cut to 20
      characters, or `GEN_CORE` when that is empty. */
  function GeneratedName(prompt: string): (r: string)
    ensures 1 <= |r| <= 20
    ensures prompt != "" ==> r <= Upper(prompt)
  {
    var cut := Take(Upper(prompt), 20);
    if cut == "" then "GEN_CORE" else cut
  }

  lemma GeneratedNameShape(prompt: string)
    ensures prompt == "" ==> GeneratedName(prompt) == "GEN_CORE"
    ensures prompt != "" ==>
      GeneratedName(prompt) <= Upper(prompt) &&
      |GeneratedName(prompt)| == (if |prompt| < 20 then |prompt| else 20) &&
      NoLowerCase(GeneratedName(prompt))
  {
    UpperIdempotent(prompt);
  }

  /** The three-letter waveform code in a manual patch's name. */
  function WaveformCode(w: WaveformType): (r: string)
    ensures |r| == 3
  {
    Take(Upper(WaveformTag(w)), 3)
  }

  /** `PATCH_<code>_<digits>`: the parts can be read back from the name. */
  function PatchName(code: string, digits: string): (r: string)
    requires |code| == 3
    ensures |r| == 10 + |digits|
    ensures r[..6] == "PATCH_" && r[6..9] == code && r[9] == '_' && r[10..] == digits
  {
    "PATCH_" + code + "_" + digits
  }

  /** The name of a manually compiled sound:
      `PATCH_<waveform code>_<last four digits of the clock>`. */
  function ManualName(w: WaveformType, now: nat): (r: string)
    ensures 11 <= |r| <= 14
  {
    PatchName(WaveformCode(w), Last(Decimal(now), 4))
  }

  lemma ManualNameShape(w: WaveformType, now: nat)
    ensures var name := ManualName(w, now);
      name[..6] == "PATCH_" && name[6..9] == WaveformCode(w) && name[9] == '_' &&
      IsDigits(name[10..]) && DigitsValue(name[10..]) == now % 10000 &&
      (now >= 1000 ==> |name| == 14)
  {
    LastFourDigits(now);
    DecimalLength(now, 4);
  }

  /** The last four characters of the clock's decimal string are digits
      spelling the clock modulo 10000. */
  lemma LastFourDigits(now: nat)
    ensures IsDigits(Last(Decimal(now), 4))
    ensures DigitsValue(Last(Decimal(now), 4)) == now % 10000
  {
    DecimalIsDigits(now);
    LastDigitsValue(now, 4);
    LowDigitsMod(now, 4);
    assert Pow10(4) == 10000;
  }

  lemma WaveformCodes()
    ensures WaveformCode(Sine) == "SIN" && WaveformCode(Square) == "SQU"
    ensures WaveformCode(Sawtooth) == "SAW" && WaveformCode(Triangle) == "TRI"
    ensures WaveformCode(Noise) == "NOI"
  {
  }

  /** The name of a user preset: the upper-cased custom name, or the
      sound's own name when the custom name is empty. */
  function PresetName(customName: string, soundName: string): (r: string)
    ensures customName == "" ==> r == soundName
    ensures customName != "" ==> |r| == |customName| && NoLowerCase(r)
  {
    UpperIdempotent(customName);
    var upper := Upper(customName);
    if upper == "" then soundName else upper
  }

  function PresetDescription(soundId: string): (r: string)
    ensures |r| == 15 + (if |soundId| < 4 then |soundId| else 4)
    ensures r[..15] == "USR_PATCH_FROM_" && r[15..] <= soundId
  {
    "USR_PATCH_FROM_" + Take(soundId, 4)
  }

  // ---------------------------------------------------------------------
  // The use cases
  // ---------------------------------------------------------------------

  /** A blob handed back by the WAV exporter. */
  datatype Blob = Blob(handle: nat)

  /** The repository operations the use cases call. */
  datatype Repository = Repository(
    generateParams: (string, Option<SynthParams>) -> SynthParams,
    renderAudio: SynthParams -> AudioBuffer,
    exportWav: AudioBuffer -> Blob)

  /** A call a use case makes on the outside world. */
  datatype Call =
    | GenerateParams(prompt: string, base: Option<SynthParams>)
    | RenderAudio(params: SynthParams)
    | ExportWav(buffer: AudioBuffer)
    | CreateObjectUrl(blob: Blob)

  datatype Outcome = Outcome(sound: SoundEntity, calls: seq<Call>)

  /** `generateSoundUseCase`. */
  function GenerateSound(repo: Repository, objectUrl: Blob -> string, prompt: string,
                         baseParams: Option<SynthParams>, uuid: string, now: int): (o: Outcome)
    ensures o.sound.id == uuid && o.sound.timestamp == now
    ensures o.sound.name == GeneratedName(prompt) && o.sound.description == prompt
    ensures o.sound.params == repo.generateParams(prompt, baseParams)
    ensures |o.calls| >= 1 && o.calls[0] == GenerateParams(prompt, baseParams)
  {
    var params := repo.generateParams(prompt, baseParams);
    var buffer := repo.renderAudio(params);
    var wavBlob := repo.exportWav(buffer);
    var blobUrl := objectUrl(wavBlob);
    Outcome(
      SoundEntity(uuid, GeneratedName(prompt), prompt, params, now, Some(buffer), Some(blobUrl)),
      [GenerateParams(prompt, baseParams), RenderAudio(params), ExportWav(buffer), CreateObjectUrl(wavBlob)])
  }

  /** The steps the manual and preset use cases share: render the
      parameters, export the buffer as WAV, take an object URL for it and
      wrap all of it in a sound record. */
  function RenderRecord(repo: Repository, objectUrl: Blob -> string, params: SynthParams,
                        uuid: string, name: string, description: string, now: int): (o: Outcome)
    ensures o.sound.id == uuid && o.sound.timestamp == now
    ensures o.sound.name == name && o.sound.description == description && o.sound.params == params
  {
    var buffer := repo.renderAudio(params);
    var wavBlob := repo.exportWav(buffer);
    var blobUrl := objectUrl(wavBlob);
    Outcome(
      SoundEntity(uuid, name, description, params, now, Some(buffer), Some(blobUrl)),
      [RenderAudio(params), ExportWav(buffer), CreateObjectUrl(wavBlob)])
  }

  /** `compileManualSoundUseCase`. The clock is read twice: once for the
      name and once for the timestamp. */
  function CompileManualSound(repo: Repository, objectUrl: Blob -> string, params: SynthParams,
                              uuid: string, nameTime: nat, now: int): (o: Outcome)
    ensures o.sound.id == uuid && o.sound.timestamp == now
    ensures o.sound.name == ManualName(params.waveform, nameTime)
    ensures o.sound.description == "MANUAL_PATCH" && o.sound.params == params
  {
    RenderRecord(repo, objectUrl, params, uuid, ManualName(params.waveform, nameTime), "MANUAL_PATCH", now)
  }

  /** `loadPresetUseCase`. */
  function LoadPreset(repo: Repository, objectUrl: Blob -> string, preset: SoundPreset,
                      uuid: string, now: int): (o: Outcome)
    ensures o.sound.id == uuid && o.sound.timestamp == now
    ensures o.sound.name == Upper(preset.name) && o.sound.description == preset.description
    ensures o.sound.params == preset.params
  {
    RenderRecord(repo, objectUrl, preset.params, uuid, Upper(preset.name), preset.description, now)
  }

  /** `createUserPresetUseCase`. */
  function CreateUserPreset(sound: SoundEntity, customName: string, uuid: string): (p: SoundPreset)
    ensures p.id == uuid && p.params == sound.params
    ensures customName != "" ==> p.name == Upper(customName)
    ensures customName == "" ==> p.name == sound.name
    ensures |p.description| == 15 + (if |sound.id| < 4 then |sound.id| else 4)
    ensures p.description[..15] == "USR_PATCH_FROM_" && p.description[15..] <= sound.id
  {
    SoundPreset(uuid, PresetName(customName, sound.name), PresetDescription(sound.id), sound.params)
  }

  // ---------------------------------------------------------------------
  // How the use cases use the repository
  // ---------------------------------------------------------------------

  /** The rendering discipline with the calls at positions `i`, `j` and `k`:
      the render of the record's parameters is call `i` and no other call
      renders; the WAV export of that same buffer is call `j`; the blob URL
      of that export is call `k`; and the record carries the buffer and
      the URL. */
  ghost predicate RendersOnceAt(repo: Repository, objectUrl: Blob -> string, o: Outcome, i: nat, j: nat, k: nat)
  {
    var buffer := repo.renderAudio(o.sound.params);
    var wavBlob := repo.exportWav(buffer);
    i < j < k < |o.calls| &&
    o.calls[i] == RenderAudio(o.sound.params) &&
    (forall m :: 0 <= m < |o.calls| && o.calls[m].RenderAudio? ==> m == i) &&
    o.calls[j] == ExportWav(buffer) &&
    o.calls[k] == CreateObjectUrl(wavBlob) &&
    o.sound.audioBuffer == Some(buffer) &&
    o.sound.blobUrl == Some(objectUrl(wavBlob))
  }

  /** Every use case that builds a sound renders once, then exports the
      WAV from that buffer, then makes the blob URL. */
  ghost predicate RendersOnceAndExports(repo: Repository, objectUrl: Blob -> string, o: Outcome)
  {
    exists i: nat, j: nat, k: nat :: RendersOnceAt(repo, objectUrl, o, i, j, k)
  }

  lemma GenerateSoundRendersOnce(repo: Repository, objectUrl: Blob -> string, prompt: string,
                                 baseParams: Option<SynthParams>, uuid: string, now: int)
    ensures RendersOnceAndExports(repo, objectUrl, GenerateSound(repo, objectUrl, prompt, baseParams, uuid, now))
  {
    var o := GenerateSound(repo, objectUrl, prompt, baseParams, uuid, now);
    assert RendersOnceAt(repo, objectUrl, o, 1, 2, 3);
  }

  lemma RenderRecordRendersOnce(repo: Repository, objectUrl: Blob -> string, params: SynthParams,
                                uuid: string, name: string, description: string, now: int)
    ensures RendersOnceAndExports(repo, objectUrl, RenderRecord(repo, objectUrl, params, uuid, name, description, now))
  {
    var o := RenderRecord(repo, objectUrl, params, uuid, name, description, now);
    assert RendersOnceAt(repo, objectUrl, o, 0, 1, 2);
  }

  lemma CompileManualSoundRendersOnce(repo: Repository, objectUrl: Blob -> string, params: SynthParams,
                                      uuid: string, nameTime: nat, now: int)
    ensures RendersOnceAndExports(repo, objectUrl, CompileManualSound(repo, objectUrl, params, uuid, nameTime, now))
  {
    RenderRecordRendersOnce(repo, objectUrl, params, uuid, ManualName(params.waveform, nameTime), "MANUAL_PATCH", now);
  }

  lemma LoadPresetRendersOnce(repo: Repository, objectUrl: Blob -> string, preset: SoundPreset,
                              uuid: string, now: int)
    ensures RendersOnceAndExports(repo, objectUrl, LoadPreset(repo, objectUrl, preset, uuid, now))
  {
    RenderRecordRendersOnce(repo, objectUrl, preset.params, uuid, Upper(preset.name), preset.description, now);
  }
}
