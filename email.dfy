/** The PHPCI e-mail notification plugin: after a build it mails a pass/fail
    report with the build log to the committer and/or a configured list of
    addresses, one message per recipient, and reports whether every message
    was accepted by the mail transport. */
module EmailPlugin {
  import opened Php
  import opened MailTransport

  // ---------------------------------------------------------------------------
  // Mail settings (the `email_settings` section of the system configuration)
  // ---------------------------------------------------------------------------

  /** The fall-back value of a mail setting; None is PHP's null. */
  function DefaultMailConfig(name: string): Option<string> {
    if name == "smtp_address" then Some("localhost")
    else if name == "default_mailto_address" then None
    else if name == "smtp_port" then Some("25")
    else if name == "smtp_encryption" then None
    else if name == "from_address" then Some("notifications-ci@phptesting.org")
    else Some("")
  }

  /** The setting is present and not the empty string. */
  predicate IsConfigured(config: map<string, string>, name: string) {
    name in config && config[name] != ""
  }

  /** `getMailConfig`: the configured value when there is a non-empty one, the
      fixed default of the setting otherwise. */
  function GetMailConfig(config: map<string, string>, name: string): (r: Option<string>)
    ensures IsConfigured(config, name) ==> r == Some(config[name])
    ensures !IsConfigured(config, name) ==> r == DefaultMailConfig(name)
    ensures r.None? <==> !IsConfigured(config, name) && (name == "smtp_encryption" || name == "default_mailto_address")
    ensures name == "smtp_address" || name == "smtp_port" || name == "from_address" ==> r.Some? && r.value != ""
  {
    if IsConfigured(config, name) then Some(config[name]) else DefaultMailConfig(name)
  }

  /** The default table: what each setting reads as when it is missing or empty. */
  lemma MailConfigDefaults(config: map<string, string>)
    ensures !IsConfigured(config, "smtp_address") ==> GetMailConfig(config, "smtp_address") == Some("localhost")
    ensures !IsConfigured(config, "smtp_port") ==> GetMailConfig(config, "smtp_port") == Some("25")
    ensures !IsConfigured(config, "from_address") ==> GetMailConfig(config, "from_address") == Some("notifications-ci@phptesting.org")
    ensures !IsConfigured(config, "smtp_encryption") ==> GetMailConfig(config, "smtp_encryption") == None
    ensures !IsConfigured(config, "default_mailto_address") ==> GetMailConfig(config, "default_mailto_address") == None
    ensures forall name | name !in {"smtp_address", "smtp_port", "from_address", "smtp_encryption", "default_mailto_address"}
              && !IsConfigured(config, name) :: GetMailConfig(config, name) == Some("")
  {
  }

  /** An empty configured value counts as unset; a non-empty one wins over the default. */
  lemma SmtpPortExamples()
    ensures GetMailConfig(map[], "smtp_port") == Some("25")
    ensures GetMailConfig(map["smtp_port" := ""], "smtp_port") == Some("25")
    ensures GetMailConfig(map["smtp_port" := "587"], "smtp_port") == Some("587")
  {
  }

  // ---------------------------------------------------------------------------
  // Recipients
  // ---------------------------------------------------------------------------

  /** The plugin's options from the build file. `committer` keeps the raw value,
      because only whether it is set matters; `addresses` entries and
      `default_mailto_address` are modelled as strings only, and for them None
      means absent or null. */
  datatype Options = Options(committer: Option<Scalar>, addresses: Option<seq<string>>, defaultMailtoAddress: Option<string>)

  /** What the plugin reads from the finished build. */
  datatype Build = Build(successful: bool, log: string, committerEmail: Option<string>)

  /** The committer is mailed when the `committer` option is set (to any non-null
      value, `false` included) and the committer e-mail is not PHP-empty. */
  predicate IncludesCommitter(options: Options, committerEmail: Option<string>) {
    Isset(options.committer) && !IsEmptyString(committerEmail)
  }

  function ConfiguredAddresses(options: Options): seq<string> {
    if options.addresses.Some? then options.addresses.value else []
  }

  function FallbackAddress(options: Options): seq<string> {
    if options.defaultMailtoAddress.Some? then [options.defaultMailtoAddress.value] else []
  }

  /** The recipient list: the committer (when included), then the configured
      addresses in order, then the default mailto address. Nothing is deduplicated. */
  function Recipients(options: Options, committerEmail: Option<string>): (r: seq<string>)
    ensures forall a :: a in r <==>
              (IncludesCommitter(options, committerEmail) && committerEmail == Some(a))
              || a in ConfiguredAddresses(options) || options.defaultMailtoAddress == Some(a)
  {
    (if IncludesCommitter(options, committerEmail) then [committerEmail.value] else [])
      + ConfiguredAddresses(options) + FallbackAddress(options)
  }

  /** Where each source of recipients lands in the list, and its length. */
  lemma RecipientsLayout(options: Options, committerEmail: Option<string>)
    ensures var r := Recipients(options, committerEmail);
            var lead := if IncludesCommitter(options, committerEmail) then 1 else 0;
            var n := |ConfiguredAddresses(options)|;
            && |r| == lead + n + (if options.defaultMailtoAddress.Some? then 1 else 0)
            && (IncludesCommitter(options, committerEmail) ==> r[0] == committerEmail.value)
            && r[lead..lead + n] == ConfiguredAddresses(options)
            && (options.defaultMailtoAddress.Some? ==> r[|r| - 1] == options.defaultMailtoAddress.value)
    ensures !IncludesCommitter(options, committerEmail) ==>
              Recipients(options, committerEmail) == ConfiguredAddresses(options) + FallbackAddress(options)
  {
  }

  /** Nobody is mailed exactly when no source of recipients contributes one. */
  lemma RecipientsEmptyIff(options: Options, committerEmail: Option<string>)
    ensures Recipients(options, committerEmail) == [] <==>
              !IncludesCommitter(options, committerEmail) && ConfiguredAddresses(options) == [] && options.defaultMailtoAddress.None?
  {
  }

  /** The PHP truthiness corner cases and the duplicate-keeping example. */
  lemma RecipientExamples()
    ensures Recipients(Options(Some(Bool(false)), None, None), Some("a@x.com")) == ["a@x.com"]
    ensures Recipients(Options(Some(Null), None, None), Some("a@x.com")) == []
    ensures Recipients(Options(Some(Bool(true)), None, None), Some("0")) == []
    ensures Recipients(Options(Some(Bool(true)), Some(["b@x.com", "a@x.com"]), None), Some("a@x.com"))
              == ["a@x.com", "b@x.com", "a@x.com"]
    ensures Recipients(Options(None, Some(["b@x.com"]), Some("")), None) == ["b@x.com", ""]
  {
  }

  // ---------------------------------------------------------------------------
  // Messages
  // ---------------------------------------------------------------------------

  const SubjectTemplate := "PHPCI - %s - %s"
  const BodyTemplate := "Log Output: <br><pre>%s</pre>"

  function BuildStatus(successful: bool): string {
    if successful then "Passing Build" else "Failing Build"
  }

  /** The subject template filled with the project and the status. */
  lemma SubjectFormatted(project: string, status: string)
    ensures Sprintf(SubjectTemplate, [project, status]) == Some("PHPCI - " + project + " - " + status)
  {
    assert SubjectTemplate == "PHPCI - " + "%s" + " - " + "%s" + "";
    SprintfTwoDirectives("PHPCI - ", project, " - ", status, "");
    assert "PHPCI - " + project + " - " + status + "" == "PHPCI - " + project + " - " + status;
  }

  /** The body template filled with the log. */
  lemma BodyFormatted(log: string)
    ensures Sprintf(BodyTemplate, [log]) == Some("Log Output: <br><pre>" + log + "</pre>")
  {
    assert BodyTemplate == "Log Output: <br><pre>" + "%s" + "</pre>";
    SprintfOneDirective("Log Output: <br><pre>", log, "</pre>");
  }

  /** The subject of the report for a build of `project`. */
  function Subject(project: string, successful: bool): (subject: string)
    ensures subject == "PHPCI - " + project + " - " + BuildStatus(successful)
  {
    SubjectFormatted(project, BuildStatus(successful));
    Sprintf(SubjectTemplate, [project, BuildStatus(successful)]).value
  }

  /** The HTML body of the report: the log, inserted verbatim, in a `pre` block. */
  function Body(log: string): (body: string)
    ensures body == "Log Output: <br><pre>" + log + "</pre>"
  {
    BodyFormatted(log);
    Sprintf(BodyTemplate, [log]).value
  }

  /** `sendEmail`'s message: fixed sender, the given recipients, HTML content. */
  function Letter(from: string, to: seq<string>, subject: string, body: string): Message {
    Message(from, to, subject, body, "text/html")
  }

  /** The messages of `sendSeparateEmails`: one per address, to that address alone, in order. */
  function SeparateLetters(from: string, addresses: seq<string>, subject: string, body: string): (letters: seq<Message>)
    ensures |letters| == |addresses|
    ensures forall i :: 0 <= i < |addresses| ==> letters[i] == Letter(from, [addresses[i]], subject, body)
  {
    if addresses == [] then []
    else [Letter(from, [addresses[0]], subject, body)] + SeparateLetters(from, addresses[1..], subject, body)
  }

  /** Sending to one more address appends one more letter. */
  lemma SeparateLettersSnoc(from: string, addresses: seq<string>, i: nat, subject: string, body: string)
    requires i < |addresses|
    ensures SeparateLetters(from, addresses[..i + 1], subject, body)
            == SeparateLetters(from, addresses[..i], subject, body) + [Letter(from, [addresses[i]], subject, body)]
  {
  }

  // ---------------------------------------------------------------------------
  // Failure aggregation
  // ---------------------------------------------------------------------------

  /** The failed addresses the transport reports for the messages, concatenated in order. */
  function Failures(rejects: Message -> seq<string>, letters: seq<Message>): seq<string> {
    if letters == [] then [] else rejects(letters[0]) + Failures(rejects, letters[1..])
  }

  /** Aggregating failures distributes over consecutive batches of messages. */
  lemma {:induction false} FailuresConcat(rejects: Message -> seq<string>, first: seq<Message>, second: seq<Message>)
    ensures Failures(rejects, first + second) == Failures(rejects, first) + Failures(rejects, second)
  {
    if first == [] {
      assert first + second == second;
    } else {
      assert (first + second)[0] == first[0];
      assert (first + second)[1..] == first[1..] + second;
      FailuresConcat(rejects, first[1..], second);
    }
  }

  /** One more message adds exactly the failures reported for it, at the end. */
  lemma FailuresSnoc(rejects: Message -> seq<string>, letters: seq<Message>, letter: Message)
    ensures Failures(rejects, letters + [letter]) == Failures(rejects, letters) + rejects(letter)
  {
    FailuresConcat(rejects, letters, [letter]);
    assert Failures(rejects, [letter]) == rejects(letter) + Failures(rejects, []);
  }

  /** No failure overall exactly when no single message reported one. */
  lemma {:induction false} FailuresNoneIff(rejects: Message -> seq<string>, letters: seq<Message>)
    ensures Failures(rejects, letters) == [] <==> forall i :: 0 <= i < |letters| ==> rejects(letters[i]) == []
  {
    if letters != [] {
      FailuresNoneIff(rejects, letters[1..]);
      assert forall i :: 1 <= i < |letters| ==> letters[i] == letters[1..][i - 1];
    }
  }

  /** Every aggregated failure was reported for some message, and none is dropped. */
  lemma {:induction false} FailuresMembership(rejects: Message -> seq<string>, letters: seq<Message>, address: string)
    ensures address in Failures(rejects, letters) <==> exists i :: 0 <= i < |letters| && address in rejects(letters[i])
  {
    if letters != [] {
      FailuresMembership(rejects, letters[1..], address);
      assert forall i :: 1 <= i < |letters| ==> letters[i] == letters[1..][i - 1];
      if address in Failures(rejects, letters[1..]) {
        var j :| 0 <= j < |letters[1..]| && address in rejects(letters[1..][j]);
        assert address in rejects(letters[j + 1]);
      }
    }
  }

  /** The two counts `execute` logs: messages sent and messages that failed. */
  datatype Tally = Tally(sent: int, failed: nat)

  // ---------------------------------------------------------------------------
  // The plugin
  // ---------------------------------------------------------------------------

  /** The plugin instance. Its fields are set by the constructor and never
      reassigned; the build and the project title are the values the host supplies. */
  class Email {
    const options: Options
    const build: Build
    const projectTitle: string
    const emailConfig: map<string, string>
    const mailer: Mailer

    /** `emailSettings` is the `email_settings` entry of the `phpci` system
        settings, None when it is not set; `mailer` stands for the Swift Mailer
        built from those settings. */
    constructor (build: Build, projectTitle: string, emailSettings: Option<map<string, string>>, options: Options, mailer: Mailer)
      ensures this.build == build && this.projectTitle == projectTitle && this.options == options && this.mailer == mailer
      ensures emailConfig == if emailSettings.Some? then emailSettings.value else map[]
    {
      this.build := build;
      this.projectTitle := projectTitle;
      this.options := options;
      this.emailConfig := if emailSettings.Some? then emailSettings.value else map[];
      this.mailer := mailer;
    }

    /** The sender of every message: the configured `from_address`, else the default. */
    function FromAddress(): (from: string)
      ensures from != ""
      ensures IsConfigured(emailConfig, "from_address") ==> from == emailConfig["from_address"]
      ensures !IsConfigured(emailConfig, "from_address") ==> from == "notifications-ci@phptesting.org"
    {
      GetMailConfig(emailConfig, "from_address").value
    }

    /** The messages `execute` sends for this build. */
    function Report(): seq<Message> {
      SeparateLetters(FromAddress(), Recipients(options, build.committerEmail),
                      Subject(projectTitle, build.successful), Body(build.log))
    }

    /** `getEmailAddresses`: builds the recipient list step by step. */
    method GetEmailAddresses() returns (addresses: seq<string>)
      ensures addresses == Recipients(options, build.committerEmail)
    {
      addresses := [];
      var committer := build.committerEmail;
      if Isset(options.committer) && !IsEmptyString(committer) {
        addresses := addresses + [committer.value];
      }
      ghost var lead := addresses;
      if options.addresses.Some? {
        var configured := options.addresses.value;
        for i := 0 to |configured|
          invariant addresses == lead + configured[..i]
        {
          addresses := addresses + [configured[i]];
        }
        assert configured[..|configured|] == configured;
      }
      if options.defaultMailtoAddress.Some? {
        addresses := addresses + [options.defaultMailtoAddress.value];
        return addresses;
      }
      return addresses;
    }

    /** `sendEmail`: one message to `toAddresses`; returns the addresses the transport reported as failed. */
    method SendEmail(toAddresses: seq<string>, subject: string, body: string) returns (failed: seq<string>)
      modifies mailer
      ensures mailer.outbox == old(mailer.outbox) + [Letter(FromAddress(), toAddresses, subject, body)]
      ensures failed == mailer.rejects(Letter(FromAddress(), toAddresses, subject, body))
    {
      var message := Letter(FromAddress(), toAddresses, subject, body);
      failed := mailer.Send(message);
    }

    /** `sendSeparateEmails`: one message per address, in order, collecting every reported failure. */
    method SendSeparateEmails(toAddresses: seq<string>, subject: string, body: string) returns (failures: seq<string>)
      modifies mailer
      ensures mailer.outbox == old(mailer.outbox) + SeparateLetters(FromAddress(), toAddresses, subject, body)
      ensures failures == Failures(mailer.rejects, SeparateLetters(FromAddress(), toAddresses, subject, body))
    {
      var from := FromAddress();
      failures := [];
      for i := 0 to |toAddresses|
        invariant mailer.outbox == old(mailer.outbox) + SeparateLetters(from, toAddresses[..i], subject, body)
        invariant failures == Failures(mailer.rejects, SeparateLetters(from, toAddresses[..i], subject, body))
      {
        var newFailures := SendEmail([toAddresses[i]], subject, body);
        ghost var before := failures;
        for j := 0 to |newFailures|
          invariant failures == before + newFailures[..j]
        {
          failures := failures + [newFailures[j]];
        }
        assert newFailures[..|newFailures|] == newFailures;
        SeparateLettersSnoc(from, toAddresses, i, subject, body);
        FailuresSnoc(mailer.rejects, SeparateLetters(from, toAddresses[..i], subject, body),
                     Letter(from, [toAddresses[i]], subject, body));
      }
      assert toAddresses[..|toAddresses|] == toAddresses;
    }

    /** `execute`: returns false without sending when there is nobody to mail;
        otherwise sends the report to each recipient and returns true iff no
        failure was reported. `tally` holds the two logged counts. */
    method Execute() returns (ok: bool, tally: Option<Tally>)
      modifies mailer
      ensures Recipients(options, build.committerEmail) == [] ==>
                !ok && tally == None && mailer.outbox == old(mailer.outbox)
      ensures Recipients(options, build.committerEmail) != [] ==>
                && mailer.outbox == old(mailer.outbox) + Report()
                && (ok <==> Failures(mailer.rejects, Report()) == [])
      ensures ok <==> Recipients(options, build.committerEmail) != []
                      && forall i :: 0 <= i < |Report()| ==> mailer.rejects(Report()[i]) == []
      ensures Recipients(options, build.committerEmail) != [] ==>
                && tally.Some?
                && tally.value.failed == |Failures(mailer.rejects, Report())|
                && tally.value.sent == |Recipients(options, build.committerEmail)| - tally.value.failed
    {
      var addresses := GetEmailAddresses();
      if |addresses| == 0 {
        return false, None;
      }
      var projectName := projectTitle;
      var logText := build.log;
      var sendFailures;
      if build.successful {
        sendFailures := SendSeparateEmails(addresses, Subject(projectName, true), Body(logText));
      } else {
        sendFailures := SendSeparateEmails(addresses, Subject(projectName, false), Body(logText));
      }
      assert mailer.outbox == old(mailer.outbox) + Report();
      assert sendFailures == Failures(mailer.rejects, Report());
      FailuresNoneIff(mailer.rejects, Report());
      tally := Some(Tally(|addresses| - |sendFailures|, |sendFailures|));
      ok := |sendFailures| == 0;
    }
  }

  /** A non-empty report goes out exactly when there are recipients: one message
      per recipient, addressed to that recipient alone, in recipient order, with
      the subject of the build's outcome and the log in the body. */
  lemma ReportLayout(plugin: Email, i: nat)
    requires i < |Recipients(plugin.options, plugin.build.committerEmail)|
    ensures |plugin.Report()| == |Recipients(plugin.options, plugin.build.committerEmail)|
    ensures plugin.Report()[i].to == [Recipients(plugin.options, plugin.build.committerEmail)[i]]
    ensures plugin.Report()[i].subject == "PHPCI - " + plugin.projectTitle + " - " + BuildStatus(plugin.build.successful)
    ensures plugin.Report()[i].body == "Log Output: <br><pre>" + plugin.build.log + "</pre>"
    ensures plugin.Report()[i].contentType == "text/html" && plugin.Report()[i].from == plugin.FromAddress()
  {
  }

  /** A passing build with one configured recipient and a transport that accepts everything. */
  method PassingBuildScenario(project: string, log: string, address: string) {
    var mailer := new Mailer((m: Message) => []);
    var plugin := new Email(Build(true, log, None), project, None, Options(None, Some([address]), None), mailer);
    var ok, tally := plugin.Execute();
    assert Recipients(plugin.options, plugin.build.committerEmail) == [address];
    assert ok;
    assert tally.Some? && tally.value.sent == 1 && tally.value.failed == 0;
    assert |mailer.outbox| == 1 && mailer.outbox[0].to == [address];
    assert mailer.outbox[0].subject == "PHPCI - " + project + " - " + "Passing Build";
    assert mailer.outbox[0].body == "Log Output: <br><pre>" + log + "</pre>";
  }

  /** A failing build with two recipients and a transport that rejects the second one. */
  method PartialFailureScenario(project: string, log: string, first: string, second: string)
    requires first != second
  {
    var mailer := new Mailer((m: Message) => if m.to == [second] then [second] else []);
    var plugin := new Email(Build(false, log, None), project, None, Options(None, Some([first, second]), None), mailer);
    var ok, tally := plugin.Execute();
    assert Recipients(plugin.options, plugin.build.committerEmail) == [first, second];
    var report := plugin.Report();
    assert report[0].to == [first] && report[1].to == [second];
    assert Failures(mailer.rejects, report) == [second] by {
      assert report == [report[0]] + [report[1]];
      FailuresConcat(mailer.rejects, [report[0]], [report[1]]);
      assert Failures(mailer.rejects, [report[0]]) == mailer.rejects(report[0]) + Failures(mailer.rejects, []);
      assert Failures(mailer.rejects, [report[1]]) == mailer.rejects(report[1]) + Failures(mailer.rejects, []);
    }
    assert !ok;
    assert tally.Some? && tally.value.sent == 1 && tally.value.failed == 1;
  }
}
