/** The persona records of the src/bot_models files and the caller-number
    dispatcher of src/dispatcher.js. */
module Personas {
  import opened Common

  /** Where a persona's system prompt comes from. The prompt builders of the
      bot-model files live outside this model, so they are named, not
      expanded; the two prompts written inline in app.js are literal text. */
  datatype Instructions =
    | BillysSteakhousePrompt   // the constant imported by billys.js
    | RyansPromptBuilder       // the `instructions` getter of ryans.js
    | BjornsPromptBuilder      // the `instructions` getter of bjorns.js
    | Text(text: string)

  /** A persona record. Temperature and speed are decimal numbers that are
      only passed through, so they are kept as the text JavaScript prints. */
  datatype Persona = Persona(
    id: string,
    name: string,
    model: string,
    voice: string,
    temperature: string,
    speed: Option<string>,
    instructions: Instructions)

  function BillyPersona(): Persona {
    Persona("billy", "Billy's Steakhouse", "gpt-4o-realtime-preview", "cedar", "0.8", None, BillysSteakhousePrompt)
  }

  function RyanPersona(): Persona {
    Persona("ryan", "Ryan's Steakhouse", "gpt-realtime-mini", "marin", "0.8", None, RyansPromptBuilder)
  }

  /** Bjorn's `speed` line is commented out in the source, so it has none. */
  function BjornPersona(): Persona {
    Persona("bjorn", "Bjorn's Steakhouse", "gpt-realtime-mini", "marin", "0.8", None, BjornsPromptBuilder)
  }

  /** Caller numbers that the dispatcher routes to Ryan's and Bjorn's personas. */
  const RyanNumbers: set<string> := {"+918930276263", "+27844500010"}
  const BjornNumbers: set<string> := {"+27765575522"}

  /** `getPersonaByNumber`: a missing caller (`undefined`) and the webhook's
      "Unknown" fall through to Billy like any other unlisted number. */
  function GetPersonaByNumber(caller: Option<string>): (p: Persona)
    ensures p == RyanPersona() <==> caller.Some? && caller.value in RyanNumbers
    ensures p == BjornPersona() <==> caller.Some? && caller.value in BjornNumbers
    ensures p == BillyPersona() <==> !(caller.Some? && caller.value in RyanNumbers + BjornNumbers)
  {
    if caller == Some("+918930276263") || caller == Some("+27844500010") then
      RyanPersona()
    else if caller == Some("+27765575522") then
      BjornPersona()
    else
      BillyPersona()
  }

  /** The dispatcher is total onto the three personas, and no two personas
      share an id, so each caller gets exactly one of them. */
  lemma DispatcherPicksExactlyOne(caller: Option<string>)
    ensures GetPersonaByNumber(caller) in {BillyPersona(), RyanPersona(), BjornPersona()}
    ensures BillyPersona().id != RyanPersona().id && RyanPersona().id != BjornPersona().id && BjornPersona().id != BillyPersona().id
  {
  }

  /** Model and voice of each persona, as the bot-model files declare them. */
  lemma PersonaConstants()
    ensures BillyPersona().model == "gpt-4o-realtime-preview" && BillyPersona().voice == "cedar"
    ensures RyanPersona().model == BjornPersona().model == "gpt-realtime-mini"
    ensures RyanPersona().voice == BjornPersona().voice == "marin"
  {
  }

  // The prompts app.js keeps inline, chosen by its own number table.
  const AppBillysPrompt: string :=
    "You are a receptionist at Billy's Steakhouse. Start by saying: \"Hello! Welcome to Billy's Steakhouse.\""
  const AppRyansPrompt: string :=
    "You are a receptionist at Ryan's Steakhouse. Start by saying: \"Hey there! Welcome to Ryan's Steakhouse.\""

  /** app.js's inline persona choice on `start`. Note that +918930276263
      gets Billy's prompt here but Ryan's persona from the dispatcher. */
  function AppPromptFor(caller: Option<string>): (prompt: string)
    ensures prompt == AppRyansPrompt <==> caller == Some("+918950394085")
    ensures prompt == AppBillysPrompt <==> caller != Some("+918950394085")
  {
    if caller == Some("+918930276263") || caller == Some("+918319377879") then
      AppBillysPrompt
    else if caller == Some("+918950394085") then
      AppRyansPrompt
    else
      AppBillysPrompt
  }

  /** The two tables disagree on +918930276263. */
  lemma TablesDisagreeOnOneNumber()
    ensures GetPersonaByNumber(Some("+918930276263")) == RyanPersona()
    ensures AppPromptFor(Some("+918930276263")) == AppBillysPrompt
  {
  }
}
