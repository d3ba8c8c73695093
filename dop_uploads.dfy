/** The upload endpoint: a new persona record is built from the submitted name, bio, photo and
    voice, stored under `personas/<dopId>.json`, and backed up as two loose files.

    The random id, the creation time and the replies of the voice-clone and avatar services
    are parameters; so are the outcomes of the store writes.

    `Commit`, `Accept` and `Handle` model the evident intent, a write through the store that
    `uploadsStore()` returns. The code as written calls `setBlob` on the factory itself, which
    throws; `HandleAsWritten` models that. */
module DopUploads {
  import opened Wrappers
  import opened Text

  // ---------------------------------------------------------------------------------------
  // compressBase64Image (lines 13-20)

  /** `maxSizeKB * 1024 * 0.75`: exact in floating point for any whole number of kilobytes. */
  function MaxChars(maxSizeKB: nat): nat { maxSizeKB * 768 }

  const DefaultMaxSizeKB: nat := 100

  /** A payload longer than the budget is cut to it; a shorter one is kept whole. */
  function CompressBase64Image(base64: string, maxSizeKB: nat): (r: string)
    ensures |r| == Min(|base64|, MaxChars(maxSizeKB))
    ensures r == base64[..|r|]
  {
    if |base64| > MaxChars(maxSizeKB) then base64[..MaxChars(maxSizeKB)] else base64
  }

  /** With the default budget the limit is 76800 characters. */
  lemma DefaultBudget()
    ensures MaxChars(DefaultMaxSizeKB) == 76800
  {
  }

  /** Compressing twice is compressing once. */
  lemma CompressIdempotent(base64: string, maxSizeKB: nat)
    ensures CompressBase64Image(CompressBase64Image(base64, maxSizeKB), maxSizeKB)
         == CompressBase64Image(base64, maxSizeKB)
  {
  }

  // ---------------------------------------------------------------------------------------
  // generatePersonaPrompts (lines 23-40), generateSystemPrompt (lines 43-55)

  const DefaultPersonaPrompts: seq<string> := [
    "What do you like to do for fun?",
    "Tell me about yourself",
    "What's your personality like?"
  ]

  const BioPersonaPrompts: seq<string> := [
    "What do you like to do for fun?",
    "Tell me about your background",
    "What makes you unique?",
    "What are you passionate about?"
  ]

  /** `bio && bio.trim().length > 10`, the length in UTF-16 units; an absent bio is "". */
  predicate HasBio(bio: string) { Utf16Length(Trim(bio)) > 10 }

  /** The four bio prompts when the bio says something, the three defaults otherwise. */
  function GeneratePersonaPrompts(bio: string, name: string): (r: seq<string>)
    ensures |r| == 4 <==> HasBio(bio)
    ensures |r| == 3 <==> !HasBio(bio)
    ensures r == (if HasBio(bio) then BioPersonaPrompts else DefaultPersonaPrompts)
  {
    if HasBio(bio) then BioPersonaPrompts else DefaultPersonaPrompts
  }

  /** The name plays no part in the prompts. */
  lemma PromptsIgnoreName(bio: string, name1: string, name2: string)
    ensures GeneratePersonaPrompts(bio, name1) == GeneratePersonaPrompts(bio, name2)
  {
  }

  /** `name || 'Assistant'` */
  function BaseName(name: string): string { if name != "" then name else "Assistant" }

  function Opening(baseName: string): string { "You are " + baseName + ". " }

  function BioClause(trimmedBio: string): string {
    "Here's what people should know about you: " + trimmedBio + ". "
  }

  function Closing(baseName: string): string {
    "Stay in character as " + baseName + ". Be conversational, warm, and authentic. " +
    "Keep responses brief and engaging (1-2 sentences, under 25 words when possible). " +
    "Never break character or mention you're an AI."
  }

  /** The prompt opens with the name, closes with the stay-in-character sentence, and holds the
      trimmed bio clause between them exactly when the bio says something. */
  function GenerateSystemPrompt(bio: string, name: string): (r: string)
    ensures StartsWith(r, Opening(BaseName(name)))
    ensures EndsWith(r, Closing(BaseName(name)))
    ensures |Opening(BaseName(name))| + |Closing(BaseName(name))| <= |r|
    ensures r[|Opening(BaseName(name))|..|r| - |Closing(BaseName(name))|]
         == (if HasBio(bio) then BioClause(Trim(bio)) else "")
  {
    var o := Opening(BaseName(name));
    var m := if HasBio(bio) then BioClause(Trim(bio)) else "";
    var c := Closing(BaseName(name));
    Sandwich(o, m, c);
    o + m + c
  }

  lemma Sandwich(o: string, m: string, c: string)
    ensures var r := o + m + c;
      StartsWith(r, o) && EndsWith(r, c) && |o| + |c| <= |r| && r[|o|..|r| - |c|] == m
  {
    var r := o + m + c;
    assert r[..|o|] == o;
    assert r[|r| - |c|..] == c;
    assert r[|o|..|r| - |c|] == m;
  }

  /** The middle of a middle part occurs in the whole. */
  lemma InMiddle(prefix: string, head: string, x: string, tail: string, rest: string)
    ensures OccursAt(prefix + (head + x + tail) + rest, x, |prefix| + |head|)
  {
    var r := prefix + (head + x + tail) + rest;
    var i := |prefix| + |head|;
    assert r[i..i + |x|] == x;
  }

  /** A bio that says something appears, trimmed, in the system prompt. */
  lemma SystemPromptMentionsBio(bio: string, name: string)
    requires HasBio(bio)
    ensures Contains(GenerateSystemPrompt(bio, name), Trim(bio))
  {
    InMiddle(Opening(BaseName(name)), "Here's what people should know about you: ", Trim(bio), ". ",
             Closing(BaseName(name)));
  }

  /** Without a bio the prompt is just the opening and the closing. */
  lemma SystemPromptWithoutBio(bio: string, name: string)
    requires !HasBio(bio)
    ensures GenerateSystemPrompt(bio, name) == Opening(BaseName(name)) + Closing(BaseName(name))
  {
    EmptyMiddle(Opening(BaseName(name)), Closing(BaseName(name)));
  }

  lemma EmptyMiddle(o: string, c: string)
    ensures o + "" + c == o + c
  {
    assert o + "" == o;
  }

  // ---------------------------------------------------------------------------------------
  // The persona record (lines 175-204)

  /** The submitted form after `JSON.parse`; absent strings are "". */
  datatype UploadForm = UploadForm(name: string, bio: string, photo: string, voice: string)

  datatype NewPersona = NewPersona(id: string, name: string, bio: string, created: string,
                                   voiceId: Option<string>, heygenAvatarId: Option<string>,
                                   heygenEnabled: bool, image: string,
                                   prompts: seq<string>, systemPrompt: string)

  /** `'dop_' + <random base-36 digits>` */
  function DopId(randomPart: string): string { "dop_" + randomPart }

  function PersonaKey(dopId: string): string { "personas/" + dopId + ".json" }

  /** `!!heygenAvatarId` */
  predicate Truthy(o: Option<string>) { o.Some? && o.value != "" }

  function BuildPersona(form: UploadForm, dopId: string, created: string,
                        voiceId: Option<string>, avatarId: Option<string>): (p: NewPersona)
    ensures p.id == dopId && p.created == created
    ensures p.name == (if form.name != "" then form.name else "My DOP")
    ensures p.bio == form.bio
    ensures p.voiceId == voiceId && p.heygenAvatarId == avatarId
    ensures p.heygenEnabled <==> Truthy(avatarId)
    ensures |p.image| <= 76800 && |p.image| <= |form.photo| && p.image == form.photo[..|p.image|]
    ensures p.image == CompressBase64Image(form.photo, DefaultMaxSizeKB)
    ensures p.prompts == GeneratePersonaPrompts(form.bio, form.name)
    ensures p.systemPrompt == GenerateSystemPrompt(form.bio, form.name)
  {
    NewPersona(dopId, if form.name != "" then form.name else "My DOP", form.bio, created,
               voiceId, avatarId, Truthy(avatarId),
               CompressBase64Image(form.photo, DefaultMaxSizeKB),
               GeneratePersonaPrompts(form.bio, form.name),
               GenerateSystemPrompt(form.bio, form.name))
  }

  // ---------------------------------------------------------------------------------------
  // The handler (lines 132-255)

  /** What the store holds after an upload: the serialized record, or a loose text file. */
  datatype Stored = PersonaBlob(persona: NewPersona) | TextBlob(text: string)

  type UploadStore = map<string, Stored>

  /** The services and store as this request sees them. `backupWrites` is how many of the two
      backup writes succeed before one fails. */
  datatype Environment = Environment(randomPart: string, created: string,
                                    voiceClone: Option<string>, avatar: Option<string>,
                                    personaWriteOk: bool, backupWrites: nat)

  datatype UploadBody = NoBody
                      | Failure(error: string)
                      | Success(dopId: string, voiceId: Option<string>, heygenAvatarId: Option<string>, message: string)

  datatype UploadResponse = UploadResponse(statusCode: int, body: UploadBody)

  /** `files/<dopId>/<name>` */
  function BackupKey(dopId: string, name: string): string { "files/" + dopId + "/" + name }

  /** The record's key is not a backup file's key. */
  lemma PersonaKeyIsNotBackup(dopId: string, name: string)
    ensures PersonaKey(dopId) != BackupKey(dopId, name)
  {
    assert PersonaKey(dopId)[0] == 'p' && BackupKey(dopId, name)[0] == 'f';
  }

  lemma BackupKeysDiffer(dopId: string)
    ensures BackupKey(dopId, "image.txt") != BackupKey(dopId, "voice.txt")
  {
    var n := |"files/" + dopId + "/"|;
    assert BackupKey(dopId, "image.txt")[n] == 'i';
    assert BackupKey(dopId, "voice.txt")[n] == 'v';
  }

  /** The two backup writes, in order, stopping at the first failure. */
  function Backups(store: UploadStore, dopId: string, image: string, voice: string, writes: nat): (r: UploadStore)
    ensures r.Keys == store.Keys + (if writes >= 1 then {BackupKey(dopId, "image.txt")} else {})
                                 + (if writes >= 2 then {BackupKey(dopId, "voice.txt")} else {})
    ensures forall k :: k in store && k != BackupKey(dopId, "image.txt") && k != BackupKey(dopId, "voice.txt")
                        ==> r[k] == store[k]
    ensures writes >= 1 ==> r[BackupKey(dopId, "image.txt")] == TextBlob(image)
    ensures writes >= 2 ==> r[BackupKey(dopId, "voice.txt")] == TextBlob(voice)
  {
    BackupKeysDiffer(dopId);
    var s1 := if writes >= 1 then store[BackupKey(dopId, "image.txt") := TextBlob(image)] else store;
    if writes >= 2 then s1[BackupKey(dopId, "voice.txt") := TextBlob(voice)] else s1
  }

  /** The record is written, then the backups are attempted; nothing else changes. */
  function Commit(store: UploadStore, dopId: string, persona: NewPersona, voice: string, writes: nat): (r: UploadStore)
    ensures PersonaKey(dopId) in r && r[PersonaKey(dopId)] == PersonaBlob(persona)
    ensures r.Keys <= store.Keys + {PersonaKey(dopId), BackupKey(dopId, "image.txt"), BackupKey(dopId, "voice.txt")}
    ensures forall k :: k in store && k !in {PersonaKey(dopId), BackupKey(dopId, "image.txt"), BackupKey(dopId, "voice.txt")}
                        ==> k in r && r[k] == store[k]
  {
    PersonaKeyIsNotBackup(dopId, "image.txt");
    PersonaKeyIsNotBackup(dopId, "voice.txt");
    Backups(store[PersonaKey(dopId) := PersonaBlob(persona)], dopId, persona.image, voice, writes)
  }

  /** A validated form: the record is built and stored, then the backups are attempted. */
  function Accept(f: UploadForm, env: Environment, store: UploadStore): (r: (UploadResponse, UploadStore))
    ensures !env.personaWriteOk ==> r.0.statusCode == 500 && r.1 == store
    ensures env.personaWriteOk ==>
      && r.0 == UploadResponse(200, Success(DopId(env.randomPart), env.voiceClone, env.avatar, "DOP created successfully"))
      && r.1 == Commit(store, DopId(env.randomPart),
                       BuildPersona(f, DopId(env.randomPart), env.created, env.voiceClone, env.avatar),
                       f.voice, env.backupWrites)
  {
    var dopId := DopId(env.randomPart);
    if !env.personaWriteOk then
      (UploadResponse(500, Failure("Upload failed: Storage failed")), store)
    else
      var persona := BuildPersona(f, dopId, env.created, env.voiceClone, env.avatar);
      (UploadResponse(200, Success(dopId, env.voiceClone, env.avatar, "DOP created successfully")),
       Commit(store, dopId, persona, f.voice, env.backupWrites))
  }

  /** `form.None?` is a body that does not parse (or parses to something that cannot be
      destructured), which the handler's catch turns into 500. */
  function Handle(httpMethod: string, form: Option<UploadForm>, env: Environment, store: UploadStore)
    : (r: (UploadResponse, UploadStore))
    ensures httpMethod == "OPTIONS" ==> r == (UploadResponse(200, NoBody), store)
    ensures httpMethod != "OPTIONS" && httpMethod != "POST" ==>
      r == (UploadResponse(405, Failure("Method not allowed")), store)
    ensures httpMethod == "POST" && form.None? ==> r.0.statusCode == 500 && r.1 == store
    ensures httpMethod == "POST" && form.Some? && (form.value.photo == "" || form.value.voice == "") ==>
      r == (UploadResponse(400, Failure("Photo and voice are required")), store)
    ensures httpMethod == "POST" && form.Some? && form.value.photo != "" && form.value.voice != "" ==>
      r == Accept(form.value, env, store)
    ensures r.1 != store ==> r.0.statusCode == 200
  {
    if httpMethod == "OPTIONS" then (UploadResponse(200, NoBody), store)
    else if httpMethod != "POST" then (UploadResponse(405, Failure("Method not allowed")), store)
    else if form.None? then (UploadResponse(500, Failure("Upload failed: invalid request body")), store)
    else if form.value.photo == "" || form.value.voice == "" then
      (UploadResponse(400, Failure("Photo and voice are required")), store)
    else Accept(form.value, env, store)
  }

  // ---------------------------------------------------------------------------------------
  // The store call as written (line 209)

  /** `uploadsStore` is the factory exported by `_lib/blobs.js`, not a store, so
      `uploadsStore.setBlob` is `undefined` and calling it throws this `TypeError`. */
  const SetBlobError := "uploadsStore.setBlob is not a function"

  /** The handler as written: the record write at line 209 always throws, lines 211-213 wrap
      the error, and the catch of lines 241-253 answers 500. Every other branch is `Handle`'s. */
  function HandleAsWritten(httpMethod: string, form: Option<UploadForm>, env: Environment, store: UploadStore)
    : (r: (UploadResponse, UploadStore))
    ensures r.1 == store
    ensures !r.0.body.Success?
    ensures httpMethod == "POST" && form.Some? && form.value.photo != "" && form.value.voice != "" ==>
      r.0 == UploadResponse(500, Failure("Upload failed: Storage failed: " + SetBlobError))
    ensures !(httpMethod == "POST" && form.Some? && form.value.photo != "" && form.value.voice != "") ==>
      r == Handle(httpMethod, form, env, store)
  {
    if httpMethod == "POST" && form.Some? && form.value.photo != "" && form.value.voice != "" then
      (UploadResponse(500, Failure("Upload failed: Storage failed: " + SetBlobError)), store)
    else Handle(httpMethod, form, env, store)
  }

  /** On every validated form with a working store, the intended `uploadsStore().set` answers
      200 and stores the record, where the code as written answers 500 and stores nothing. */
  lemma SetBlobDefect(f: UploadForm, env: Environment, store: UploadStore)
    requires f.photo != "" && f.voice != "" && env.personaWriteOk
    ensures Handle("POST", Some(f), env, store).0.statusCode == 200
    ensures PersonaKey(DopId(env.randomPart)) in Handle("POST", Some(f), env, store).1
    ensures HandleAsWritten("POST", Some(f), env, store).0.statusCode == 500
    ensures HandleAsWritten("POST", Some(f), env, store).1 == store
  {
  }

  /** A failed backup write does not change the answer: only the loose files are missing. */
  lemma BackupFailureIsHarmless(form: Option<UploadForm>, env: Environment, store: UploadStore, writes: nat)
    ensures Handle("POST", form, env, store).0 == Handle("POST", form, env.(backupWrites := writes), store).0
  {
  }
}
