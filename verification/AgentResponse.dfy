/** Capturing an agent's final response: complete and whole, or not at all (internal/app/agent_response.go). */
module AgentResponse {
  import Team
  import opened LogWriter

  const MAX_RESPONSE: nat := 0x10_0000

  /** What is stored beside the response when its stream ends. */
  datatype Marking = Marking(complete: bool, truncated: bool, digest: string)

  ghost predicate Injective(digest: Bytes -> string) {
    forall a, b :: digest(a) == digest(b) ==> a == b
  }

  ghost predicate NeverSilent(rules: Rules) {
    forall line :: line != "" ==> rules.redact(line) != ""
  }

  /** Output and redaction fit, and the redaction never silences a line. */
  ghost predicate Fits(maximum: nat, rules: Rules, s: Bytes) {
    |s| <= maximum && |RedactedText(rules, s)| <= maximum && NeverSilent(rules)
  }

  class Capture {
    const writer: RedactingLog
    const maximum: nat
    var received: nat
    var truncated: bool
    var writeError: bool
    ghost var stdout: Bytes

    ghost predicate Valid()
      reads this, writer, writer.log
    {
      && writer.Valid() && maximum == writer.log.maximum && maximum <= MAX_LOG
      && received == |stdout|
      && writer.stream == stdout[..if received < maximum then received else maximum]
      && (!writer.closed ==> truncated == (received > maximum) && (writer.intact <==> !writeError))
    }

    constructor (rules: Rules, maximum: nat, disk: nat -> Disk)
      requires 0 < maximum <= MAX_LOG
      ensures Valid() && fresh(writer) && fresh(writer.log) && stdout == "" && this.maximum == maximum && !writeError
      ensures writer.rules == rules && writer.log.disk == disk && !writer.closed
    {
      hide Lines, Rest, Emitted, Concat, LogOk, Appended;
      writer := new RedactingLog(rules, maximum, disk);
      this.maximum := maximum;
      received, truncated, writeError, stdout := 0, false, false, "";
    }

    /** Passes on what still fits; everything received counts. */
    method Write(data: Bytes) returns (ok: bool)
      requires Valid() && !writer.closed
      modifies this, writer, writer.log
      ensures Valid() && !writer.closed && stdout == old(stdout) + data
      ensures (forall k :: !writer.log.disk(k).Fails?) ==> ok && writeError == old(writeError)
    {
      hide Lines, Rest, Emitted, Concat, LogOk, Appended;
      var remaining := maximum - received;
      received := received + |data|;
      ghost var before := stdout;
      stdout := stdout + data;
      if received > maximum {
        truncated := true;
      }
      if remaining <= 0 {
        assert stdout[..maximum] == before[..maximum];
        return true;
      }
      var part := if |data| > remaining then data[..remaining] else data;
      assert before + part == stdout[..if received < maximum then received else maximum];
      ok := writer.Write(part);
      if !ok {
        writeError := true;
      }
    }

    /**
     * Ends the stream and marks the stored file. A file marked complete and not truncated is the
     * redaction of everything received.
     */
    method Close(digest: Bytes -> string, readable: bool) returns (m: Marking)
      requires Valid() && !writer.closed
      modifies this, writer, writer.log
      ensures Valid() && writer.closed && stdout == old(stdout)
      ensures m.digest == digest(writer.log.contents)
      ensures m.complete && !m.truncated ==>
        |stdout| <= maximum && writer.log.contents == RedactedText(writer.rules, stdout) && |writer.log.contents| <= maximum
      ensures (forall k :: !writer.log.disk(k).Fails?) && readable && !old(writeError) ==> m.complete
      ensures (forall k :: !writer.log.disk(k).Fails?) && !old(writeError) && Fits(maximum, writer.rules, stdout) ==> !m.truncated
    {
      hide Lines, Rest, Emitted, Appended, RedactedText, AllLines;
      var closed := writer.Close();
      truncated := truncated || writer.log.truncated;
      var complete := closed && !writeError && readable;
      m := Marking(complete, truncated, digest(writer.log.contents));
      assert received <= maximum ==> writer.stream == stdout;
      if NeverSilent(writer.rules) && writer.intact {
        LinesSpeak(writer.rules, writer.stream);
      }
    }
  }

  lemma {:induction false} LinesAreNotEmpty(s: Bytes)
    ensures forall k :: 0 <= k < |Lines(s)| ==> Lines(s)[k] != ""
    decreases |s|
  {
    var e := LineEnd(s);
    if e >= 0 {
      LinesAreNotEmpty(s[e + 1..]);
      SplitFirst(s);
      hide Lines;
      assert s[..e + 1] != "";
    }
  }

  lemma {:induction false} EmissionsSpeak(rules: Rules, lines: seq<Bytes>)
    requires NeverSilent(rules) && forall k :: 0 <= k < |lines| ==> lines[k] != ""
    ensures NoneEmpty(Emitted(rules, lines).out)
  {
    if lines != [] {
      EmissionsSpeak(rules, lines[..|lines| - 1]);
    }
  }

  /** When redaction never silences a line, every write to the log carries something. */
  lemma LinesSpeak(rules: Rules, s: Bytes)
    requires NeverSilent(rules)
    ensures NoneEmpty(Emitted(rules, AllLines(s)).out)
  {
    LinesAreNotEmpty(s);
    hide Lines, Rest, Emitted, NoneEmpty;
    EmissionsSpeak(rules, AllLines(s));
  }

  /** Reads a stored response back; a file that is not the one marked is refused. */
  method AgentSessionResponse(ended: bool, m: Team.Option<Marking>, file: Team.Option<Bytes>, digest: Bytes -> string) returns (r: Team.Option<Bytes>)
    ensures r.Some? <==> ended && m.Some? && m.value.complete && !m.value.truncated
                         && file.Some? && |file.value| <= MAX_RESPONSE && digest(file.value) == m.value.digest
    ensures r.Some? ==> r == file
  {
    r := Team.None;
    if !ended || m.None? {
      return;
    }
    if !m.value.complete || m.value.truncated {
      return;
    }
    if file.None? || |file.value| > MAX_RESPONSE {
      return;
    }
    if digest(file.value) != m.value.digest {
      return;
    }
    r := file;
  }

  /**
   * A whole session. However standard output was cut into writes, whatever failed on the way and
   * whatever file is found later, a returned response is the redaction of all of it. When the disk
   * works and the file is left alone, a response is returned exactly when output and redaction fit.
   */
  method CaptureSession(rules: Rules, maximum: nat, disk: nat -> Disk, chunks: seq<Bytes>, readable: bool, ended: bool, found: Team.Option<Bytes>, digest: Bytes -> string)
    returns (r: Team.Option<Bytes>, stored: Bytes)
    requires 0 < maximum <= MAX_RESPONSE && Injective(digest)
    ensures r.Some? ==> r.value == RedactedText(rules, Concat(chunks))
    ensures (forall k :: !disk(k).Fails?) && readable && ended && found == Team.Some(stored) && NeverSilent(rules) ==>
      (r.Some? <==> |Concat(chunks)| <= maximum && |RedactedText(rules, Concat(chunks))| <= maximum)
  {
    hide RedactedText, Concat, Lines, Rest, Emitted, LogOk, NeverSilent;
    var capture := new Capture(rules, maximum, disk);
    NoChunks(chunks);
    for n := 0 to |chunks|
      invariant capture.Valid() && !capture.writer.closed && fresh(capture) && fresh(capture.writer) && fresh(capture.writer.log)
      invariant capture.stdout == Concat(chunks[..n]) && capture.maximum == maximum
      invariant capture.writer.rules == rules && capture.writer.log.disk == disk
      invariant (forall k :: !disk(k).Fails?) ==> !capture.writeError
    {
      var _ := capture.Write(chunks[n]);
      ConcatSnoc(chunks[..n], chunks[n]);
      assert chunks[..n + 1] == chunks[..n] + [chunks[n]];
    }
    assert chunks[..|chunks|] == chunks;
    var m := capture.Close(digest, readable);
    stored := capture.writer.log.contents;
    r := AgentSessionResponse(ended, Team.Some(m), found, digest);
  }

  lemma NoChunks(chunks: seq<Bytes>)
    ensures Concat(chunks[..0]) == ""
  {
  }
}
