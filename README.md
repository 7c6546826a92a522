# PHPCI e-mail notification plugin, modelled in Dafny

PHPCI's `Email` plugin runs after a build. It works out who to notify (the
committer and/or a configured address list, plus an optional default
address), composes a "Passing Build" / "Failing Build" report holding the
build log, sends one separate message per recipient through Swift Mailer, and
tells the build pipeline whether every message went through. This project
models that decision and bookkeeping logic and proves what it promises.

Layout:

- `php.dfy` (module `Php`): the PHP semantics the plugin depends on: `isset` on
  an array entry, `empty` on a string-or-null, and `sprintf` with `%s`
  directives, with lemmas that fill one or two `%s` between literal runs.
- `mail_transport.dfy` (module `MailTransport`): the message the plugin builds,
  and a `Mailer` class standing in for Swift Mailer. It keeps the messages
  handed to it, in order, in the ghost field `outbox`. Which recipients fail is an oracle,
  `rejects: Message -> seq<string>`, chosen when the mailer is created.
- `email.dfy` (module `EmailPlugin`): the mail settings lookup with its default
  table, the recipient list, the subject and body, the per-recipient messages,
  failure aggregation, and the class `Email`. Its methods `GetEmailAddresses`,
  `SendEmail`, `SendSeparateEmails` and `Execute` follow the PHP methods step
  by step, loops included, and are each proved against the specification
  functions (`Recipients`, `SeparateLetters`, `Failures`, `Report`). Two client
  methods, `PassingBuildScenario` and `PartialFailureScenario`, derive the
  outcome of a whole run from the contracts alone. In the first, one recipient
  and a transport that accepts everything give `true` with counts 1 and 0. In
  the second, two recipients, one of them rejected, give `false` with counts 1
  and 1.

Inputs the host supplies become plain values: the build's success flag, log
and committer e-mail (`Build`), the project title, the `email_settings`
section of the system configuration, and the plugin options (`Options`).

Choices that follow the PHP code:

- The `committer` option is tested with `isset`. Any non-null value enables
  it, `false` included. Its raw value is therefore kept as a PHP scalar.
  The option is meant as a boolean, but the code never looks at its truth
  value, so neither does the model.
- The committer address is tested with `empty`. That excludes null, `""` and
  also `"0"`.
- `addresses` and `default_mailto_address` are also tested with `isset`. A
  present `default_mailto_address` is appended even when it is `""`.
- In `getMailConfig` a configured value counts only when it is not `""`. The
  loose `!= ""` comparison keeps `"0"` on string values.
- The early `return` inside the `default_mailto_address` branch of
  `getEmailAddresses` returns the same list as the final `return`. The model
  keeps both.

## Model

| member | source | states |
|---|---|---|
| `EmailPlugin.GetMailConfig` | PHPCI/Plugin/Email.php:137-159 | A present, non-empty setting is returned verbatim. Otherwise the setting's default is returned. The result is null exactly for an unset `smtp_encryption` or `default_mailto_address`. `smtp_address`, `smtp_port` and `from_address` never read as empty. |
| `EmailPlugin.MailConfigDefaults` | PHPCI/Plugin/Email.php:144-157 | The default table for unset or empty settings: `localhost`, `25`, `notifications-ci@phptesting.org`, null for encryption and default mailto, `""` for any other key. |
| `EmailPlugin.SmtpPortExamples` | PHPCI/Plugin/Email.php:139-150 | `smtp_port` reads `25` when missing or `""`, and `587` when configured so. |
| `EmailPlugin.Email.constructor` | PHPCI/Plugin/Email.php:43-52 | The mail settings are the `email_settings` section when it is set, and an empty map otherwise. The options, build and mailer are kept as given. |
| `EmailPlugin.Email.FromAddress` | PHPCI/Plugin/Email.php:101 | The sender is the configured `from_address` if non-empty, else `notifications-ci@phptesting.org`, and never empty. |
| `Php.Isset` | PHPCI/Plugin/Email.php:166 | `isset` on an option: the key is present and its value is not null; `false`, `0` and `""` are set. |
| `Php.IsEmptyString` | PHPCI/Plugin/Email.php:166 | `empty` on the committer e-mail, a string or null: true for null, `""` and `"0"`, false for every other string. |
| `EmailPlugin.Recipients` | PHPCI/Plugin/Email.php:161-181 | The recipient list: the committer when the `committer` option is set and the committer e-mail is not PHP-empty, then the configured addresses in order, then the default mailto address when set. Its contract: an address is in the list iff it is the included committer, one of the configured addresses, or the default. |
| `EmailPlugin.RecipientsLayout` | PHPCI/Plugin/Email.php:161-181 | The list length is (committer included ? 1 : 0) + number of configured addresses + (default set ? 1 : 0). An included committer is first. The configured addresses follow contiguously and in order. The default mailto address is last. Without the committer the list is the configured addresses then the default. |
| `EmailPlugin.RecipientsEmptyIff` | PHPCI/Plugin/Email.php:161-181 | The list is empty iff the committer is not included, no address is configured and no default is set. |
| `EmailPlugin.RecipientExamples` | PHPCI/Plugin/Email.php:164-177 | `committer: false` still includes the committer. A null `committer` does not. A committer e-mail of `"0"` is dropped. Duplicates are kept. An empty default address is still appended. |
| `EmailPlugin.Email.GetEmailAddresses` | PHPCI/Plugin/Email.php:161-181 | The list built step by step in the two loops equals `Recipients` of the options and the committer e-mail. |
| `Php.Sprintf` | PHPCI/Plugin/Email.php:74-75 | PHP's `sprintf` for string arguments: ordinary characters are copied, `%%` gives `%`, `%s` inserts the next argument verbatim, surplus arguments are ignored, and a missing argument is an error (None). Its behaviour is stated by the lemmas below. |
| `Php.SprintfNoDirectives` | PHPCI/Plugin/Email.php:74-75 | A format with no `%` formats to itself, whatever the arguments. |
| `Php.SprintfLiteralPrefix` | PHPCI/Plugin/Email.php:74-75 | A run of ordinary characters at the head of a format is copied unchanged in front of the rest. |
| `Php.SprintfStringDirective` | PHPCI/Plugin/Email.php:74-75 | `%s` consumes exactly the next argument and inserts it verbatim. |
| `Php.SprintfTooFewArguments` | PHPCI/Plugin/Email.php:74-75 | A `%s` with no argument left is an error. |
| `Php.SprintfOneDirective` | PHPCI/Plugin/Email.php:75 | One `%s` between two `%`-free runs yields before + argument + after. |
| `Php.SprintfLeadingDirectives` | PHPCI/Plugin/Email.php:74 | A format that starts with `%s` and holds a second `%s` between `%`-free runs takes both arguments in order. |
| `Php.SprintfTwoDirectives` | PHPCI/Plugin/Email.php:74 | Two `%s` separated by `%`-free runs take the two arguments in order. |
| `EmailPlugin.SubjectFormatted` | PHPCI/Plugin/Email.php:67-80 | The template `PHPCI - %s - %s` filled with project and status is `PHPCI - <project> - <status>`. |
| `EmailPlugin.BodyFormatted` | PHPCI/Plugin/Email.php:75 | The body template filled with the log is `Log Output: <br><pre>` + log + `</pre>`. |
| `EmailPlugin.Subject` | PHPCI/Plugin/Email.php:67-80 | The subject is `PHPCI - <project> - Passing Build` for a successful build, and `... - Failing Build` otherwise. |
| `EmailPlugin.Body` | PHPCI/Plugin/Email.php:69-81 | The body is `Log Output: <br><pre>` + log + `</pre>`, with the log inserted verbatim, whatever the build outcome. |
| `EmailPlugin.SeparateLetters` | PHPCI/Plugin/Email.php:111-121 | One message per address, in address order. Message i is addressed to address i alone and carries the common sender, subject and body as `text/html`. |
| `EmailPlugin.SeparateLettersSnoc` | PHPCI/Plugin/Email.php:114-115 | Sending to one more address appends exactly one more message. |
| `EmailPlugin.Failures` | PHPCI/Plugin/Email.php:113-120 | The failures `sendSeparateEmails` collects: the addresses reported failed for each message, concatenated in send order, duplicates kept. Its properties are the four lemmas below. |
| `EmailPlugin.FailuresConcat` | PHPCI/Plugin/Email.php:113-120 | Aggregated failures of two consecutive batches are the concatenation of each batch's failures. |
| `EmailPlugin.FailuresSnoc` | PHPCI/Plugin/Email.php:116-118 | One more message appends exactly the failures reported for it. |
| `EmailPlugin.FailuresNoneIff` | PHPCI/Plugin/Email.php:85-89 | The aggregated failure list is empty iff no single send reported a failure. |
| `EmailPlugin.FailuresMembership` | PHPCI/Plugin/Email.php:113-120 | An address is among the aggregated failures iff some send reported it. Nothing is invented and nothing is dropped. |
| `MailTransport.Mailer.Send` | PHPCI/Plugin/Email.php:105-108 | The message is appended to the transport's outbox, and the failed addresses it reports are returned. |
| `EmailPlugin.Email.SendEmail` | PHPCI/Plugin/Email.php:98-109 | Exactly one message is sent: configured sender, the given recipients, subject and body, `text/html`. The transport's reported failures are returned. |
| `EmailPlugin.Email.SendSeparateEmails` | PHPCI/Plugin/Email.php:111-121 | Exactly `SeparateLetters` is appended to the outbox, one send per address in input order. The result is the in-order concatenation of the failures of each send. |
| `EmailPlugin.Email.Execute` | PHPCI/Plugin/Email.php:57-90 | With no recipients: returns false, sends nothing, logs nothing. Otherwise: sends the report once per recipient in order, and logs \|recipients\| − \|failures\| sent and \|failures\| failed. The result is true iff there is at least one recipient and no individual send reported a failed address. |
| `EmailPlugin.Email.Report` | PHPCI/Plugin/Email.php:67-83 | The messages `execute` sends: `SeparateLetters` of the configured sender, the recipient list, the outcome's subject and the log body. `ReportLayout` states its shape. |
| `EmailPlugin.ReportLayout` | PHPCI/Plugin/Email.php:67-83 | The report has one message per recipient. Message i goes to recipient i alone, with the outcome's subject, the log body, `text/html` and the configured sender. |
| `EmailPlugin.PassingBuildScenario` | PHPCI/Plugin/Email.php:57-90 | A passing build, one configured address and a transport that accepts everything: `execute` returns true, logs 1 sent and 0 failed, and sends one message to that address with the Passing Build subject and the log body. |
| `EmailPlugin.PartialFailureScenario` | PHPCI/Plugin/Email.php:57-90 | A failing build, two distinct configured addresses and a transport that rejects the second: `execute` returns false and logs 1 sent and 1 failed. |

## Left out

- Transport set-up (`loadSwiftMailerFromConfig`, PHPCI/Plugin/Email.php:123-135) is not modelled. It only passes settings to Swift Mailer, whose code is not part of this model. The mailer is a constructor argument instead.
- SMTP delivery itself is not modelled. The transport's answer is an oracle fixed when the `Mailer` is created: a function from a message to the recipients it fails. A transport whose answer for the same message changes over time is not captured.
- Exceptions thrown by the transport are not modelled. The plugin does not catch them.
- The text of the two log lines is not modelled, only the two counts passed to them (`Tally`). The log output goes to the host.
- The `Builder` and `Build` objects are not modelled. The values read from them are inputs: project title, log, success flag and committer e-mail.
- `EmailPlugin.Email.Execute`: the sent count is not claimed to be non-negative. The transport may report more failed addresses than there were recipients, and the code does nothing to prevent that.
- `Php.Sprintf` covers only the `%s` and `%%` directives, the only ones the two templates need. Every other conversion specification (`%d`, `%5s`, `%1$s`, ...) is not modelled and gives None, although PHP formats the valid ones. `%d` formatting of the log lines is left out with the log text.
- Plugin option values other than PHP scalars are not modelled, such as an array given for `committer`. The entries of `addresses` and the `default_mailto_address` value are modelled as strings only. A non-string scalar there, such as `default_mailto_address: false`, passes `isset` and is appended by the source just like the `""` case the model covers, but it is not a value of the model. A non-array `addresses` value, which PHP's `foreach` would warn about and skip, is not modelled either.
- Mail setting values that are not strings are not modelled. A null setting is treated like an absent one, as `isset` does.
- The doc comment of `execute` (PHPCI/Plugin/Email.php:55) speaks of MySQL. It describes nothing the code does.
