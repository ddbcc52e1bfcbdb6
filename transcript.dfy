/**
 * The conversation transcript of `_log_conversation`: which file an exchange is
 * appended to and how one entry is written. The file append itself is not modelled.
 */
module Transcript {
  import opened Wrappers
  import opened Text

  /** The hard-coded, shared log directory. */
  const LogsDir := "/Users/flaura-macbook" + "/_projects/xoxo" + "/src/xoxo/logs"

  /** `name.lower().split(' ')[0]`: the first word of a card name, lowercased. */
  function ShortName(name: string): (r: string)
    ensures IsPrefix(r, Lower(name)) && ' ' !in r
    ensures |r| < |name| ==> name[|r|] == ' '
  {
    FirstWord(Lower(name))
  }

  /** `sorted([a, b])` */
  function Sorted(a: string, b: string): (r: (string, string))
    ensures multiset{r.0, r.1} == multiset{a, b}
    ensures !LexLess(r.1, r.0)
  {
    LexLessTotal(a, b);
    if LexLess(b, a) then (b, a) else (a, b)
  }

  /** The pair does not depend on the order of the arguments. */
  lemma SortedSymmetric(a: string, b: string)
    ensures Sorted(a, b) == Sorted(b, a)
  {
    LexLessTotal(a, b);
  }

  /** `f"{logs_dir}/{names[0]}_{names[1]}_conversation.txt"` for an agent with short name `myShort`. */
  function LogFilename(myShort: string, partnerName: string): (r: string)
    ensures IsPrefix(LogsDir + "/", r) && EndsWith(r, "_conversation.txt")
  {
    var names := Sorted(myShort, ShortName(partnerName));
    var r := LogsDir + "/" + names.0 + "_" + names.1 + "_conversation.txt";
    assert r == (LogsDir + "/") + (names.0 + "_" + names.1 + "_conversation.txt");
    assert r == (LogsDir + "/" + names.0 + "_" + names.1) + "_conversation.txt";
    r
  }

  /**
   * Two agents whose short names are `x` and `y` log to the same file when each one
   * derives the other's short name from the partner name it is handed.
   */
  lemma LogFilenameShared(x: string, y: string, nameOfX: string, nameOfY: string)
    requires ShortName(nameOfX) == x && ShortName(nameOfY) == y
    ensures LogFilename(x, nameOfY) == LogFilename(y, nameOfX)
  {
    SortedSymmetric(x, y);
  }

  /** The speaker rewrite: the agent's own name or short name is logged as `selfName`. */
  function LogSpeaker(selfName: string, myShort: string, speaker: string): (r: string)
    ensures r == selfName <==> speaker == selfName || speaker == myShort
    ensures r != selfName ==> r == speaker
  {
    if speaker == selfName || speaker == myShort then selfName else speaker
  }

  /** `f"[{timestamp}] {speaker}: {message}\n\n"` */
  function LogEntry(timestamp: string, speaker: string, message: string): string {
    "[" + timestamp + "] " + speaker + ": " + message + "\n\n"
  }

  /** Reads an entry back into timestamp, speaker and message. */
  function ParseEntry(e: string): Option<(string, string, string)> {
    if |e| < 3 || e[0] != '[' || !EndsWith(e, "\n\n") then None
    else
      var body := e[1..|e| - 2];
      match IndexOf(body, "] ")
      case None => None
      case Some(i) =>
        var rest := body[i + 2..];
        match IndexOf(rest, ": ")
        case None => None
        case Some(j) => Some((body[..i], rest[..j], rest[j + 2..]))
  }

  /** An entry as a bracket, a body and the closing blank line. */
  lemma EntryShape(timestamp: string, speaker: string, message: string)
    ensures LogEntry(timestamp, speaker, message) == "[" + (timestamp + "] " + (speaker + ": " + message)) + "\n\n"
  {
  }

  /**
   * The entry format loses nothing: a timestamp without ']' and a speaker without ':'
   * (as `%Y-%m-%d %H:%M:%S` stamps and the agents' card names are) are read back exactly.
   */
  lemma ParseLogEntry(timestamp: string, speaker: string, message: string)
    requires ']' !in timestamp && ':' !in speaker
    ensures ParseEntry(LogEntry(timestamp, speaker, message)) == Some((timestamp, speaker, message))
  {
    var rest := speaker + ": " + message;
    var body := timestamp + "] " + rest;
    var e := "[" + body + "\n\n";
    EntryShape(timestamp, speaker, message);
    assert e[1..|e| - 2] == body;
    assert EndsWith(e, "\n\n");
    IndexOfAfter(timestamp, "] ", rest);
    assert body[|timestamp| + 2..] == rest;
    assert body[..|timestamp|] == timestamp;
    IndexOfAfter(speaker, ": ", message);
    assert rest[..|speaker|] == speaker;
    assert rest[|speaker| + 2..] == message;
  }

  // The agents' card names, and the short name each one uses for itself.
  const AnaCardName := "Ana - Mexican Lawyer and Animal Rights Activist"
  const IrvinCardName := "Irvin - Turkish Chef and Businessman"
  const AnaShortName := "maria"
  const IrvinShortName := "irvin"

  /**
   * As written, Ana calls herself "maria" while Irvin derives "ana" from her card name
   * (`AnaCardName` starts with the word "Ana"), so the two sides of one conversation
   * are appended to two different files.
   */
  lemma AnaIrvinLogsDiverge(anaRest: string, irvinRest: string)
    ensures LogFilename(AnaShortName, "Irvin" + " " + irvinRest) == LogsDir + "/" + "irvin" + "_" + "maria" + "_conversation.txt"
    ensures LogFilename(IrvinShortName, "Ana" + " " + anaRest) == LogsDir + "/" + "ana" + "_" + "irvin" + "_conversation.txt"
    ensures LogFilename(AnaShortName, "Irvin" + " " + irvinRest) != LogFilename(IrvinShortName, "Ana" + " " + anaRest)
  {
    AnaSideFile(irvinRest);
    IrvinSideFile(anaRest);
    assert (LogsDir + "/" + "irvin" + "_" + "maria" + "_conversation.txt")[|LogsDir| + 1] == 'i';
    assert (LogsDir + "/" + "ana" + "_" + "irvin" + "_conversation.txt")[|LogsDir| + 1] == 'a';
  }

  lemma AnaSideFile(irvinRest: string)
    ensures LogFilename(AnaShortName, "Irvin" + " " + irvinRest) == LogsDir + "/" + "irvin" + "_" + "maria" + "_conversation.txt"
  {
    CardShortName("Irvin", irvinRest);
    assert Lower("Irvin") == "irvin";
    assert Sorted(AnaShortName, "irvin") == ("irvin", "maria");
  }

  lemma IrvinSideFile(anaRest: string)
    ensures LogFilename(IrvinShortName, "Ana" + " " + anaRest) == LogsDir + "/" + "ana" + "_" + "irvin" + "_conversation.txt"
  {
    CardShortName("Ana", anaRest);
    assert Lower("Ana") == "ana";
    assert Sorted(IrvinShortName, "ana") == ("ana", "irvin");
  }

  /** The short name of a card name `w + " " + rest` whose first word is `w`. */
  lemma CardShortName(w: string, rest: string)
    requires ' ' !in w
    ensures ShortName(w + " " + rest) == Lower(w)
  {
    LowerAppend(w + " ", rest);
    LowerAppend(w, " ");
    assert Lower(" ") == " ";
    FirstWordOf(Lower(w), Lower(rest));
  }

  /** Each agent's short name taken from its own card name, as it is taken for the partner. */
  function OwnLogFilename(ownCardName: string, partnerName: string): string {
    LogFilename(ShortName(ownCardName), partnerName)
  }

  /** With both short names derived the same way, both agents append to one shared file. */
  lemma SharedLogFilename(cardA: string, cardB: string)
    ensures OwnLogFilename(cardA, cardB) == OwnLogFilename(cardB, cardA)
  {
    LogFilenameShared(ShortName(cardA), ShortName(cardB), cardA, cardB);
  }
}
