/**
 * The tables of agent/borg_ui_agent/borg_flags.py: which options each borg command takes, with or
 * without a value, and which of them one major alone has. They have the form the proofs about the
 * normaliser ask for.
 */
module BorgOptions {
  import opened BorgFlags

  const COMMON_SWITCHES: set<string> := {
    "--progress", "-p", "--verbose", "-v", "--info", "--debug", "--log-json", "--show-rc"}
  const COMMON_OPTIONS: set<string> := {"--lock-wait"}
  const CREATE_REPORTS: set<string> := {"--stats", "-s", "--list", "--dry-run", "-n"}
  const CREATE_SCOPE: set<string> := {"--one-file-system", "-x", "--sparse", "--read-special"}
  const CREATE_OWNERS: set<string> := {"--numeric-ids", "--numeric-owner"}
  const CREATE_TIMES: set<string> := {"--atime", "--noatime", "--noctime", "--nobirthtime"}
  const CREATE_ATTRIBUTES: set<string> := {"--noflags", "--nobsdflags", "--noacls", "--noxattrs"}
  const CREATE_EXCLUSIONS: set<string> := {"--exclude-caches", "--exclude-nodump", "--keep-exclude-tags"}
  const CREATE_PATTERNS: set<string> := {"--filter", "--exclude", "-e", "--pattern"}
  const CREATE_MARKERS: set<string> := {"--exclude-if-present"}
  const CREATE_PATTERN_FILES: set<string> := {"--patterns-from", "--exclude-from"}
  const CREATE_CACHE: set<string> := {"--files-cache", "--files-changed"}
  const CREATE_CHECKPOINTS: set<string> := {"--checkpoint-interval"}
  const CREATE_STORAGE: set<string> := {"--chunker-params", "--compression"}
  const CREATE_TRANSFER: set<string> := {"--upload-ratelimit", "--upload-buffer"}
  const CREATE_LABELS: set<string> := {"--comment", "--timestamp", "--tags"}
  const CHECK_SCOPE: set<string> := {"--repository-only", "--archives-only"}
  const CHECK_DATA: set<string> := {"--verify-data"}
  const CHECK_REPAIR: set<string> := {"--repair", "--save-space", "--find-lost-archives"}
  const CHECK_RANGE: set<string> := {"--max-duration", "--first", "--last", "--sort-by", "-a"}
  const CHECK_AGE: set<string> := {"--oldest", "--newest", "--older", "--newer"}
  const CHECK_MATCH: set<string> := {"--prefix", "--glob-archives", "--match-archives"}
  const CREATE_MAJOR1_ONLY: set<string> := {
    "--checkpoint-interval", "--exclude-nodump", "--noatime", "--nobsdflags",
    "--numeric-owner", "--upload-buffer", "--upload-ratelimit"}
  const CREATE_MAJOR2_ONLY: set<string> := {"--tags"}
  const CHECK_MAJOR1_ONLY: set<string> := {"--glob-archives", "--prefix", "--save-space"}
  const CHECK_MAJOR2_ONLY: set<string> := {
    "--find-lost-archives", "--match-archives", "--newer",
    "--newest", "--older", "--oldest"}

  function TableOf(switches: set<string>, options: set<string>): Table {
    map name | name in switches + options :: name in options
  }

  function CreateTable(): Table {
    TableOf(COMMON_SWITCHES + CREATE_REPORTS + CREATE_SCOPE + CREATE_OWNERS
            + CREATE_TIMES + CREATE_ATTRIBUTES + CREATE_EXCLUSIONS,
            COMMON_OPTIONS + CREATE_PATTERNS + CREATE_MARKERS + CREATE_PATTERN_FILES + CREATE_CACHE
            + CREATE_CHECKPOINTS + CREATE_STORAGE + CREATE_TRANSFER + CREATE_LABELS)
  }

  function CheckTable(): Table {
    TableOf(COMMON_SWITCHES + CHECK_SCOPE + CHECK_DATA + CHECK_REPAIR,
            COMMON_OPTIONS + CHECK_RANGE + CHECK_AGE + CHECK_MATCH)
  }

  function BorgCommands(): Commands {
    map["create" := Grammar(CreateTable(), CREATE_MAJOR1_ONLY, CREATE_MAJOR2_ONLY),
        "check" := Grammar(CheckTable(), CHECK_MAJOR1_ONLY, CHECK_MAJOR2_ONLY)]
  }

  predicate Named(names: set<string>) {
    forall name :: name in names ==> OptionName(name)
  }

  // Proved in parts, to keep each within the verifier's limit.

  lemma {:induction false} CommonNames()
    ensures Named(COMMON_SWITCHES) && Named(COMMON_OPTIONS)
  {
  }

  lemma {:induction false} CreateReportNames()
    ensures Named(CREATE_REPORTS)
  {
  }

  lemma {:induction false} CreateOwnerNames()
    ensures Named(CREATE_OWNERS) && Named(CREATE_CHECKPOINTS)
  {
  }

  lemma {:induction false} CreateScopeNames()
    ensures Named(CREATE_SCOPE) && Named(CREATE_MARKERS)
  {
  }

  lemma {:induction false} CreateAttributeNames()
    ensures Named(CREATE_TIMES) && Named(CREATE_ATTRIBUTES)
  {
  }

  lemma {:induction false} CreateLabelNames()
    ensures Named(CREATE_LABELS)
  {
  }

  lemma {:induction false} CreateExclusionNames()
    ensures Named(CREATE_EXCLUSIONS)
  {
  }

  lemma {:induction false} CreatePatternNames()
    ensures Named(CREATE_PATTERNS)
  {
  }

  lemma {:induction false} CreateFileNames()
    ensures Named(CREATE_PATTERN_FILES) && Named(CREATE_CACHE)
  {
  }

  lemma {:induction false} CreateStorageNames()
    ensures Named(CREATE_STORAGE) && Named(CREATE_TRANSFER)
  {
  }

  lemma {:induction false} CheckSwitchNames()
    ensures Named(CHECK_SCOPE) && Named(CHECK_DATA) && Named(CHECK_REPAIR)
  {
  }

  lemma {:induction false} CheckOptionNames()
    ensures Named(CHECK_RANGE)
  {
  }

  lemma {:induction false} CheckAgeNames()
    ensures Named(CHECK_AGE) && Named(CHECK_MATCH)
  {
  }

  /** Every name of the tables is an option name, so what is proved of any tables holds of these. */
  lemma {:induction false} TablesAreWellFormed()
    ensures AllWellFormed(BorgCommands())
  {
    CommonNames();
    CreateReportNames();
    CreateOwnerNames();
    CreateScopeNames();
    CreateAttributeNames();
    CreateLabelNames();
    CreateExclusionNames();
    CreatePatternNames();
    CreateFileNames();
    CreateStorageNames();
    CheckSwitchNames();
    CheckOptionNames();
    CheckAgeNames();
  }
}
