/** The knowledge-base sync function: S3 object events become a list of
    file changes, an ingestion job is started on the knowledge base, and the
    administrators are told by an SNS message that lists the first ten
    changes. The Bedrock and SNS calls are inputs: what the ingestion call
    answers or raises, and whether the publish raises. */
module KbSync {
  import opened Common

  /** One S3 event record: `eventName`, `s3.bucket.name`, `s3.object.key`
      and `eventTime`, each absent when the record (or the object holding
      it) lacks it. */
  datatype S3Record = S3Record(eventName: Field, bucketName: Field, objectKey: Field, eventTime: Field)

  datatype FileChange = FileChange(event: Field, bucket: Field, key: Field, timestamp: Field)

  /** What `start_ingestion_job` on the Bedrock agent client does: answers
      with its `ingestionJob` (absent fields `Missing`), or raises a client
      error with a code, or raises anything else. */
  datatype Ingestion =
    | Started(hasJob: bool, jobId: Field, status: Field)
    | ClientError(code: string, message: string)
    | OtherError(message: string)

  /** The response the handler goes on with: the job, absent when the
      answer had no `ingestionJob`. */
  datatype Job = Job(jobId: Field, status: Field)

  datatype Publish = Publish(topicArn: string, subject: string, message: string)

  datatype KbBody =
    | Text(text: string)
    | Initiated(message: string, ingestionJobId: Field, filesProcessed: nat, changes: seq<FileChange>)

  /** The answer, whether an ingestion job was asked for, and the SNS
      messages published. */
  datatype KbResponse = KbResponse(statusCode: int, body: KbBody, ingestionRequested: bool, published: seq<Publish>)

  // ---------------------------------------------------------------------------
  // Records to changes

  /** One record's change: every missing field reads as "". */
  function ChangeOf(r: S3Record): (c: FileChange)
    ensures c.event == GetOr(r.eventName, "") && c.bucket == GetOr(r.bucketName, "")
    ensures c.key == GetOr(r.objectKey, "") && c.timestamp == GetOr(r.eventTime, "")
    ensures !c.event.Missing? && !c.bucket.Missing? && !c.key.Missing? && !c.timestamp.Missing?
  {
    FileChange(GetOr(r.eventName, ""), GetOr(r.bucketName, ""), GetOr(r.objectKey, ""), GetOr(r.eventTime, ""))
  }

  /** The loop over the records: one change per record, in record order. */
  method CollectChanges(records: seq<S3Record>) returns (changes: seq<FileChange>)
    ensures |changes| == |records|
    ensures forall i :: 0 <= i < |records| ==> changes[i] == ChangeOf(records[i])
  {
    changes := [];
    for i := 0 to |records|
      invariant |changes| == i
      invariant forall j :: 0 <= j < i ==> changes[j] == ChangeOf(records[j])
    {
      changes := changes + [ChangeOf(records[i])];
    }
  }

  // ---------------------------------------------------------------------------
  // Ingestion

  const ExistingJob := Job(Str("existing-job"), Str("IN_PROGRESS"))

  /** `start_ingestion_job`: a conflict (a job already running) becomes the
      synthetic in-progress job; any other error propagates. */
  function StartIngestion(answer: Ingestion): (r: Result<Option<Job>>)
    ensures answer.ClientError? && answer.code == "ConflictException" ==> r == Ok(Some(ExistingJob))
    ensures r.Fail? <==> (answer.ClientError? && answer.code != "ConflictException") || answer.OtherError?
  {
    match answer
    case Started(has, id, st) => Ok(if has then Some(Job(id, st)) else None)
    case ClientError(code, m) => if code == "ConflictException" then Ok(Some(ExistingJob)) else Fail(m)
    case OtherError(m) => Fail(m)
  }

  datatype Result<T> = Ok(value: T) | Fail(message: string)

  // ---------------------------------------------------------------------------
  // The notification

  /** A value as an f-string shows it; absent fields were defaulted before
      they get here. */
  function Show(f: Field): string {
    match f
    case Str(s) => s
    case Num(n) => IntToString(n)
    case _ => "None"
  }

  function ChangeLine(c: FileChange): string {
    "- " + Show(c.event) + ": " + Show(c.key)
  }

  function MoreLine(extra: int): string {
    "\n... and " + IntToString(extra) + " more files"
  }

  /** The listed lines of the first ten changes. */
  function ListedLines(changes: seq<FileChange>): (lines: seq<string>)
    ensures |lines| == (if |changes| < 10 then |changes| else 10)
  {
    var shown := Take(changes, 10);
    seq(|shown|, i requires 0 <= i < |shown| => ChangeLine(shown[i]))
  }

  /** The `file_list` of the message. */
  function FileList(changes: seq<FileChange>): string {
    Join(ListedLines(changes), "\n") + (if |changes| > 10 then MoreLine(|changes| - 10) else "")
  }

  /** Building `file_list` step by step: the line of each of the first ten
      changes, then the count of the rest. */
  method BuildFileList(changes: seq<FileChange>) returns (fileList: string)
    ensures fileList == FileList(changes)
  {
    var n := if |changes| < 10 then |changes| else 10;
    var lines: seq<string> := [];
    for i := 0 to n
      invariant lines == ListedLines(changes)[..i]
    {
      lines := lines + [ChangeLine(changes[i])];
    }
    assert lines == ListedLines(changes);
    fileList := Join(lines, "\n");
    if |changes| > 10 {
      fileList := fileList + MoreLine(|changes| - 10);
    }
  }

  const Subject := "Knowledge Base Auto-Sync Triggered"

  const Header := "\nKnowledge Base Auto-Sync Triggered\n====================================\n\nThe MHFA Learning Navigator knowledge base is being synchronized with the latest documents.\n\nFiles Changed: "
  const JobLine := "\n\nIngestion Job ID: "
  const StatusLine := "\nStatus: Started\nTimestamp: "
  const Footer := "\n\nThe chatbot will automatically use updated information once the sync completes (typically 2-5 minutes).\n\nNote: No action required. This is an automated notification.\n"

  /** The message text; `now` is the ISO time the message is built. */
  function NotificationText(count: nat, fileList: string, jobId: string, now: string): string {
    Header + (IntToString(count) + "\n" + fileList) + (JobLine + jobId + (StatusLine + now + Footer))
  }

  /** `notify_admins`: nothing without a topic; otherwise one message,
      unless the publish raises, which is swallowed. The job id defaults to
      "N/A". */
  function Notify(topic: Option<string>, changes: seq<FileChange>, job: Option<Job>, now: string,
                  publishFails: bool): (published: seq<Publish>)
    ensures |published| <= 1
    ensures topic.None? || topic.value == "" ==> published == []
  {
    if topic.None? || topic.value == "" || publishFails then []
    else
      var id := if job.None? || job.value.jobId.Missing? then "N/A" else Show(job.value.jobId);
      [Publish(topic.value, Subject, NotificationText(|changes|, FileList(changes), id, now))]
  }

  /** A text holds `mid` when it is `pre + mid + post`. */
  lemma ContainsMiddle(pre: string, mid: string, post: string)
    ensures Contains(pre + mid + post, mid) && Contains(pre + (mid + post), mid)
  {
    var s := pre + mid + post;
    assert s[|pre|..|pre| + |mid|] == mid;
    assert pre + (mid + post) == s;
    ContainsAt(s, mid, |pre|);
  }

  /** The message text holds the number of changes followed by the file
      list, and the job id. */
  lemma NotificationHolds(count: nat, fileList: string, jobId: string, now: string)
    ensures Contains(NotificationText(count, fileList, jobId, now), IntToString(count) + "\n" + fileList)
    ensures Contains(NotificationText(count, fileList, jobId, now), JobLine + jobId)
  {
    var files := IntToString(count) + "\n" + fileList;
    var rest := StatusLine + now + Footer;
    ContainsMiddle(Header, files, JobLine + jobId + rest);
    ContainsMiddle(Header + files, JobLine + jobId, rest);
  }

  /** With a topic and a publish that goes through, the one message goes
      to that topic under the fixed subject, and its text holds the number
      of changes followed by the file list, and the job id ("N/A" when the
      answer has none). */
  lemma NotifyMessage(topic: Option<string>, changes: seq<FileChange>, job: Option<Job>, now: string)
    requires topic.Some? && topic.value != ""
    ensures var published := Notify(topic, changes, job, now, false);
      var id := if job.None? || job.value.jobId.Missing? then "N/A" else Show(job.value.jobId);
      |published| == 1 && published[0].topicArn == topic.value && published[0].subject == Subject
      && Contains(published[0].message, IntToString(|changes|) + "\n" + FileList(changes))
      && Contains(published[0].message, JobLine + id)
  {
    var id := if job.None? || job.value.jobId.Missing? then "N/A" else Show(job.value.jobId);
    NotificationHolds(|changes|, FileList(changes), id, now);
  }

  // ---------------------------------------------------------------------------
  // The handler

  const Initiated200 := "Knowledge base sync initiated successfully"

  /** `lambda_handler`. `records` is the event's `Records`, None when it is
      absent or null. */
  method KbSyncHandle(records: Option<seq<S3Record>>, answer: Ingestion, topic: Option<string>, now: string,
                      publishFails: bool) returns (r: KbResponse)
    ensures r == KbSyncSpec(records, answer, topic, now, publishFails)
  {
    if records.None? || records.value == [] {
      return KbResponse(400, Text("No S3 records found in event"), false, []);
    }
    var changes := CollectChanges(records.value);
    assert changes == ChangesOf(records.value);
    var job := StartIngestion(answer);
    if job.Fail? {
      return KbResponse(500, Text("Error: " + job.message), true, []);
    }
    var published: seq<Publish> := [];
    if topic.Some? && topic.value != "" && !publishFails {
      var fileList := BuildFileList(changes);
      var jobId := if job.value.None? || job.value.value.jobId.Missing? then "N/A" else Show(job.value.value.jobId);
      published := [Publish(topic.value, Subject, NotificationText(|changes|, fileList, jobId, now))];
    }
    assert published == Notify(topic, changes, job.value, now, publishFails);
    var id := if job.value.None? || job.value.value.jobId.Missing? then Null else job.value.value.jobId;
    r := KbResponse(200, Initiated(Initiated200, id, |changes|, changes), true, published);
  }

  function ChangesOf(records: seq<S3Record>): (changes: seq<FileChange>)
    ensures |changes| == |records|
  {
    seq(|records|, i requires 0 <= i < |records| => ChangeOf(records[i]))
  }

  /** What the handler answers, as a function of its inputs. */
  function KbSyncSpec(records: Option<seq<S3Record>>, answer: Ingestion, topic: Option<string>, now: string,
                      publishFails: bool): KbResponse
  {
    if records.None? || records.value == [] then KbResponse(400, Text("No S3 records found in event"), false, [])
    else
      var changes := ChangesOf(records.value);
      match StartIngestion(answer)
      case Fail(m) => KbResponse(500, Text("Error: " + m), true, [])
      case Ok(job) =>
        var id := if job.None? || job.value.jobId.Missing? then Null else job.value.jobId;
        KbResponse(200, Initiated(Initiated200, id, |changes|, changes), true, Notify(topic, changes, job, now, publishFails))
  }

  // ---------------------------------------------------------------------------
  // Properties

  /** An event without records is refused before any job is asked for;
      with records, the answer is 200 exactly when the ingestion call
      answered or reported a conflict, and 200 reports one change per
      record. */
  lemma HandlerOutcomes(records: Option<seq<S3Record>>, answer: Ingestion, topic: Option<string>, now: string,
                        publishFails: bool)
    ensures var r := KbSyncSpec(records, answer, topic, now, publishFails);
      (records.None? || records.value == [] <==> r.statusCode == 400)
      && (r.statusCode == 400 ==> !r.ingestionRequested && r.published == [])
      && (r.statusCode != 400 ==>
            r.ingestionRequested
            && (r.statusCode == 200 <==> StartIngestion(answer).Ok?)
            && (r.statusCode == 200 ==> r.body.filesProcessed == |records.value| == |r.body.changes|))
      && (r.statusCode in {200, 400, 500})
  {
  }

  /** A conflict reports the existing job as the one started. */
  lemma ConflictIsExistingJob(records: seq<S3Record>, code: string, message: string, topic: Option<string>,
                              now: string, publishFails: bool)
    requires records != [] && code == "ConflictException"
    ensures var r := KbSyncSpec(Some(records), ClientError(code, message), topic, now, publishFails);
      r.statusCode == 200 && r.body.ingestionJobId == Str("existing-job")
  {
  }

  /** A failing publish never changes the answer: it only drops the
      message. */
  lemma PublishFailureHarmless(records: Option<seq<S3Record>>, answer: Ingestion, topic: Option<string>,
                               now: string)
    ensures var ok := KbSyncSpec(records, answer, topic, now, false);
      var failed := KbSyncSpec(records, answer, topic, now, true);
      failed.statusCode == ok.statusCode && failed.body == ok.body && failed.published == []
  {
  }

  /** Only the first ten changes are listed: two change lists of the same
      length that agree on their first ten give the same file list. */
  lemma OnlyFirstTenListed(a: seq<FileChange>, b: seq<FileChange>)
    requires |a| == |b| && Take(a, 10) == Take(b, 10)
    ensures FileList(a) == FileList(b)
  {
    assert ListedLines(a) == ListedLines(b);
  }

  /** With ten changes or fewer the list is their lines alone; with more it
      ends with the count of the changes left out. */
  lemma MoreLineOnlyOverTen(changes: seq<FileChange>)
    ensures |changes| <= 10 ==>
      FileList(changes) == Join(ListedLines(changes), "\n") && |ListedLines(changes)| == |changes|
    ensures |changes| > 10 ==>
      var f, m := FileList(changes), MoreLine(|changes| - 10);
      |m| <= |f| && f[|f| - |m|..] == m && |ListedLines(changes)| == 10
  {
    if |changes| > 10 {
      var head := Join(ListedLines(changes), "\n");
      var m := MoreLine(|changes| - 10);
      assert FileList(changes) == head + m;
      assert (head + m)[|head + m| - |m|..] == m;
    }
  }

  /** Every listed line is the line of the change at that position. */
  lemma ListedInOrder(changes: seq<FileChange>, i: nat)
    requires i < |changes| && i < 10
    ensures ListedLines(changes)[i] == "- " + Show(changes[i].event) + ": " + Show(changes[i].key)
  {
  }
}
