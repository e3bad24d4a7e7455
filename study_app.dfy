/**
 * The start screen FirstScreen/app/study-app.tsx: a greeting chosen by the
 * hour, a button that starts and stops speech recognition, and the transcript
 * built from the recognition results.
 */
module StudyApp {

  const Morning: string := "Good Morning User"
  const Afternoon: string := "Good Afternoon User"
  const Evening: string := "Good Evening User"

  /** The greeting for an hour of `Date.getHours()`. */
  function Greeting(hour: int): (g: string)
    ensures g == Morning <==> 5 <= hour < 12
    ensures g == Afternoon <==> 12 <= hour < 18
    ensures g == Evening <==> hour < 5 || hour >= 18
  {
    if hour >= 5 && hour < 12 then Morning
    else if hour >= 12 && hour < 18 then Afternoon
    else Evening
  }

  /** What the page asked the recognizer to do. */
  datatype Command = StartListening | StopListening

  /** One recognition result: its alternatives, the first one always present. */
  datatype SpeechResult = SpeechResult(first: string, others: seq<string>)

  /** `Array.from(event.results).map(res => res[0].transcript).join("")`. */
  function Transcript(results: seq<SpeechResult>): (t: string)
    ensures |t| == Sum(results)
  {
    if results == [] then "" else Transcript(results[..|results| - 1]) + results[|results| - 1].first
  }

  /** The transcript of consecutive runs of results is the join of their transcripts. */
  lemma {:induction false} TranscriptAppend(a: seq<SpeechResult>, b: seq<SpeechResult>)
    ensures Transcript(a + b) == Transcript(a) + Transcript(b)
    decreases |b|
  {
    if b != [] {
      var n := |b| - 1;
      assert (a + b)[..|a + b| - 1] == a + b[..n];
      assert (a + b)[|a + b| - 1] == b[n];
      TranscriptAppend(a, b[..n]);
    } else {
      assert a + b == a;
    }
  }

  /**
   * The transcript is the first alternatives laid end to end: the i-th
   * result's first alternative sits right after those of the results before
   * it, and the other alternatives appear nowhere.
   */
  lemma TranscriptPieces(results: seq<SpeechResult>)
    ensures forall i :: 0 <= i < |results| ==>
      && Sum(results[..i]) + |results[i].first| <= |Transcript(results)|
      && Transcript(results)[Sum(results[..i])..Sum(results[..i]) + |results[i].first|] == results[i].first
  {
    forall i | 0 <= i < |results|
      ensures Sum(results[..i]) + |results[i].first| <= |Transcript(results)|
      ensures Transcript(results)[Sum(results[..i])..Sum(results[..i]) + |results[i].first|] == results[i].first
    {
      TranscriptPiece(results, i);
    }
  }

  /** The transcript splits around the i-th result's first alternative. */
  lemma TranscriptPiece(results: seq<SpeechResult>, i: nat)
    requires i < |results|
    ensures Transcript(results) == Transcript(results[..i]) + results[i].first + Transcript(results[i + 1..])
  {
    SplitAround(results, i);
    TranscriptAround(results[..i], results[i], results[i + 1..]);
  }

  lemma SplitAround(results: seq<SpeechResult>, i: nat)
    requires i < |results|
    ensures results == results[..i] + [results[i]] + results[i + 1..]
  {
  }

  lemma TranscriptAround(pre: seq<SpeechResult>, x: SpeechResult, rest: seq<SpeechResult>)
    ensures Transcript(pre + [x] + rest) == Transcript(pre) + x.first + Transcript(rest)
  {
    TranscriptAppend(pre + [x], rest);
    TranscriptSnoc(pre, x);
  }

  lemma TranscriptSnoc(a: seq<SpeechResult>, x: SpeechResult)
    ensures Transcript(a + [x]) == Transcript(a) + x.first
  {
    assert (a + [x])[..|a|] == a;
  }

  /** The total length of the first alternatives. */
  function Sum(results: seq<SpeechResult>): nat
  {
    if results == [] then 0 else Sum(results[..|results| - 1]) + |results[|results| - 1].first|
  }

  /** The recording button's caption. */
  function ButtonText(isRecording: bool): (t: string)
    ensures t == "Stop Recording" <==> isRecording
    ensures t == "Start Recording" <==> !isRecording
  {
    if isRecording then "Stop Recording" else "Start Recording"
  }

  /** Commands alternate start, stop, start, ... */
  predicate Alternating(commands: seq<Command>) {
    forall i :: 0 <= i < |commands| ==> commands[i] == if i % 2 == 0 then StartListening else StopListening
  }

  class App {
    var isRecording: bool
    var greeting: string
    var recognizer: bool
    var commands: seq<Command>
    var transcript: string
    var alerts: nat

    /**
     * The recognizer is started and stopped in turn, it exists once it was
     * told anything, and the page records exactly while the last command was
     * a start.
     */
    predicate Valid()
      reads this
    {
      && Alternating(commands)
      && (isRecording <==> |commands| % 2 == 1)
      && (commands != [] ==> recognizer)
    }

    constructor ()
      ensures !isRecording && greeting == Morning && !recognizer && commands == [] && transcript == "" && alerts == 0
      ensures Valid()
    {
      isRecording := false;
      greeting := Morning;
      recognizer := false;
      commands := [];
      transcript := "";
      alerts := 0;
    }

    /** The effect that sets the greeting from the hour. */
    method ShowGreeting(hour: int)
      modifies this
      ensures greeting == Greeting(hour)
      ensures isRecording == old(isRecording) && recognizer == old(recognizer) && commands == old(commands)
      ensures transcript == old(transcript) && alerts == old(alerts)
    {
      greeting := Greeting(hour);
    }

    /**
     * `toggleRecording`. `supported` says whether the browser has speech
     * recognition; without it the page only alerts.
     */
    method ToggleRecording(supported: bool)
      requires Valid()
      modifies this
      ensures Valid()
      ensures !supported ==>
        && alerts == old(alerts) + 1 && isRecording == old(isRecording)
        && commands == old(commands) && recognizer == old(recognizer)
      ensures supported ==>
        && recognizer
        && commands == old(commands) + [if old(isRecording) then StopListening else StartListening]
        && isRecording == !old(isRecording)
        && alerts == old(alerts)
      ensures greeting == old(greeting) && transcript == old(transcript)
    {
      if !supported {
        alerts := alerts + 1;
        return;
      }
      if !recognizer {
        recognizer := true;
      }
      if !isRecording {
        commands := commands + [StartListening];
      } else {
        commands := commands + [StopListening];
      }
      isRecording := !isRecording;
    }

    /** The recognizer's `onresult` handler. */
    method OnResult(results: seq<SpeechResult>)
      modifies this
      ensures transcript == Transcript(results)
      ensures isRecording == old(isRecording) && recognizer == old(recognizer) && commands == old(commands)
      ensures greeting == old(greeting) && alerts == old(alerts)
    {
      transcript := Transcript(results);
    }

    /** Editing the text area. */
    method Edit(text: string)
      modifies this
      ensures transcript == text
      ensures isRecording == old(isRecording) && recognizer == old(recognizer) && commands == old(commands)
      ensures greeting == old(greeting) && alerts == old(alerts)
    {
      transcript := text;
    }
  }
}
