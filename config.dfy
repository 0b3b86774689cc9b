/**
 * The recorder's settings (`src/config.py`): the `Config` record with its defaults, and the
 * first-run questionnaire that fills it from the operator's replies. The replies are a
 * sequence read from position `pos` on; running out of replies is the `EOFError` of `input()`.
 */
module Config {
  import opened Wrappers
  import opened Strings
  import Seqs

  datatype Config = Config(
    outputDirectory: string,
    usersToMonitor: seq<string>,
    checkInterval: int,
    generateThumbnail: bool,
    compressVideos: bool,
    deleteOriginal: bool,
    deleteSplitVideoAfterUpload: bool,
    uploadVideos: bool,
    removeOldRecordings: bool,
    minFreeDiskSpace: real,
    discordEnable: bool,
    discordChannelId: string,
    devMode: bool)

  /** `Config()` with every field at its default. */
  function Default(): Config {
    Config("recordings", [], 60, true, true, true, true, false, true, 20.0, false, "", false)
  }

  /**
   * The defaults obey the rules the questionnaire guarantees of its answers: an interval of at
   * least ten seconds (the questionnaire's own default), the derived deletion flags, and
   * notifications off with no channel id.
   */
  lemma DefaultsConsistent()
    ensures Default().checkInterval == DefaultInterval && Default().checkInterval >= 10
    ensures !Default().compressVideos ==> !Default().deleteOriginal
    ensures !Default().uploadVideos ==> Default().deleteSplitVideoAfterUpload
    ensures Default().discordEnable == (Default().discordChannelId != "")
    ensures Default().usersToMonitor == [] && !Default().devMode && Default().minFreeDiskSpace == 20.0
    ensures !Default().uploadVideos && !Default().discordEnable && Default().discordChannelId == ""
  {
  }

  /** A value of the dumped dictionary. */
  datatype Value = Str(s: string) | Int(i: int) | Bool(b: bool) | Real(r: real) | Strs(l: seq<string>)

  const FieldNames := ["output_directory", "users_to_monitor", "check_interval", "generate_thumbnail",
    "compress_videos", "delete_original", "delete_split_video_after_upload", "upload_videos",
    "remove_old_recordings", "min_free_disk_space", "discord_enable", "discord_channel_id", "dev_mode"]

  /** `model_dump()`: every field in declaration order, the output directory as a string. */
  function ModelDump(c: Config): (r: seq<(string, Value)>)
    ensures |r| == |FieldNames| && forall i :: 0 <= i < |r| ==> r[i].0 == FieldNames[i]
    ensures r[0].1 == Str(c.outputDirectory)
  {
    [("output_directory", Str(c.outputDirectory)), ("users_to_monitor", Strs(c.usersToMonitor)),
     ("check_interval", Int(c.checkInterval)), ("generate_thumbnail", Bool(c.generateThumbnail)),
     ("compress_videos", Bool(c.compressVideos)), ("delete_original", Bool(c.deleteOriginal)),
     ("delete_split_video_after_upload", Bool(c.deleteSplitVideoAfterUpload)),
     ("upload_videos", Bool(c.uploadVideos)), ("remove_old_recordings", Bool(c.removeOldRecordings)),
     ("min_free_disk_space", Real(c.minFreeDiskSpace)), ("discord_enable", Bool(c.discordEnable)),
     ("discord_channel_id", Str(c.discordChannelId)), ("dev_mode", Bool(c.devMode))]
  }

  /** Reading a dump back field by field gives the same configuration. */
  function FromDump(d: seq<(string, Value)>): Option<Config>
  {
    if |d| == 13 && d[0].1.Str? && d[1].1.Strs? && d[2].1.Int? && d[3].1.Bool? && d[4].1.Bool?
       && d[5].1.Bool? && d[6].1.Bool? && d[7].1.Bool? && d[8].1.Bool? && d[9].1.Real? && d[10].1.Bool?
       && d[11].1.Str? && d[12].1.Bool?
    then Some(Config(d[0].1.s, d[1].1.l, d[2].1.i, d[3].1.b, d[4].1.b, d[5].1.b, d[6].1.b, d[7].1.b,
                     d[8].1.b, d[9].1.r, d[10].1.b, d[11].1.s, d[12].1.b))
    else None
  }

  lemma DumpRoundTrip(c: Config)
    ensures FromDump(ModelDump(c)) == Some(c)
  {
  }

  const EOFError := "EOF when reading a line"

  /** One reply to a yes/no question, stripped and lowercased; `None` asks again. */
  function ParseBool(reply: string, default: bool): Option<bool>
  {
    var response := Lower(Strip(reply));
    if response == "" then Some(default)
    else if response == "y" || response == "yes" then Some(true)
    else if response == "n" || response == "no" then Some(false)
    else None
  }

  /**
   * An empty reply takes the default; `y`/`yes` and `n`/`no`, in any case and with any
   * surrounding whitespace, answer the question; everything else is asked again.
   */
  lemma ParseBoolMeaning(reply: string, default: bool)
    ensures var response := Lower(Strip(reply));
      && (ParseBool(reply, default) == Some(true) <==> response == "y" || response == "yes" || (response == "" && default))
      && (ParseBool(reply, default) == Some(false) <==> response == "n" || response == "no" || (response == "" && !default))
  {
  }

  /** `get_boolean_setting(prompt, default)`. */
  method GetBooleanSetting(replies: seq<string>, pos: nat, default: bool) returns (r: Result<bool>, next: nat)
    requires pos <= |replies|
    ensures pos <= next <= |replies|
    ensures r.Ok? ==> pos < next && ParseBool(replies[next - 1], default) == Some(r.value)
    ensures forall j :: pos <= j < (if r.Ok? then next - 1 else next) ==> ParseBool(replies[j], default).None?
    ensures r.Err? ==> next == |replies|
    ensures r.Err? ==> r.error == EOFError
  {
    next := pos;
    while true
      invariant pos <= next <= |replies|
      invariant forall j :: pos <= j < next ==> ParseBool(replies[j], default).None?
      decreases |replies| - next
    {
      if next == |replies| {
        return Err(EOFError), next;
      }
      var answer := ParseBool(replies[next], default);
      next := next + 1;
      if answer.Some? {
        return Ok(answer.value), next;
      }
    }
  }

  const DefaultInterval := 60

  /** One reply to the interval question: empty for the default, else an integer of at least 10. */
  function ParseInterval(reply: string): (r: Option<int>)
    ensures r.Some? ==> r.value >= 10
    ensures Strip(reply) == "" ==> r == Some(DefaultInterval)
  {
    var s := Strip(reply);
    if s == "" then Some(DefaultInterval)
    else match ParseInt(s)
      case None => None
      case Some(i) => if i < 10 then None else Some(i)
  }

  /** Every interval of at least ten seconds, typed as its decimal digits, is accepted as is. */
  lemma ParseIntervalOfDigits(i: int)
    requires i >= 10
    ensures ParseInterval(IntToString(i)) == Some(i)
  {
    var s := IntToString(i);
    StripOfDigits(s);
    ParseIntOfIntToString(i);
    assert ParseInt(Strip(s)) == Some(i);
  }

  /** `get_check_interval()`. */
  method GetCheckInterval(replies: seq<string>, pos: nat) returns (r: Result<int>, next: nat)
    requires pos <= |replies|
    ensures pos <= next <= |replies|
    ensures r.Ok? ==> pos < next && r.value >= 10 && ParseInterval(replies[next - 1]) == Some(r.value)
    ensures forall j :: pos <= j < (if r.Ok? then next - 1 else next) ==> ParseInterval(replies[j]).None?
    ensures r.Err? ==> r.error == EOFError
  {
    next := pos;
    while true
      invariant pos <= next <= |replies|
      invariant forall j :: pos <= j < next ==> ParseInterval(replies[j]).None?
      decreases |replies| - next
    {
      if next == |replies| {
        return Err(EOFError), next;
      }
      var interval := ParseInterval(replies[next]);
      next := next + 1;
      if interval.Some? {
        return Ok(interval.value), next;
      }
    }
  }

  /** The stripped replies up to the first empty one. */
  function UsersIn(replies: seq<string>): seq<string>
  {
    if replies == [] || Strip(replies[0]) == "" then [] else [Strip(replies[0])] + UsersIn(replies[1..])
  }

  /** Before the first empty reply, the users are exactly the stripped replies, one each. */
  lemma {:induction false} UsersUntil(replies: seq<string>, pos: nat, n: nat)
    requires pos <= n < |replies| && Strip(replies[n]) == ""
    requires forall j :: pos <= j < n ==> Strip(replies[j]) != ""
    ensures var u := UsersIn(replies[pos..]);
      |u| == n - pos && forall k :: 0 <= k < |u| ==> u[k] != "" && u[k] == Strip(replies[pos + k])
    decreases n - pos
  {
    assert replies[pos..][0] == replies[pos] && replies[pos..][1..] == replies[pos + 1..];
    if pos < n {
      UsersUntil(replies, pos + 1, n);
    }
  }

  /**
   * `get_users_to_monitor()`: every non-empty stripped reply, in order, until an empty one.
   */
  method GetUsersToMonitor(replies: seq<string>, pos: nat) returns (r: Result<seq<string>>, next: nat)
    requires pos <= |replies|
    ensures pos <= next <= |replies|
    ensures r.Ok? ==> pos < next && Strip(replies[next - 1]) == "" && r.value == UsersIn(replies[pos..])
    ensures r.Ok? ==> forall j :: pos <= j < next - 1 ==> Strip(replies[j]) != ""
    ensures r.Ok? ==> |r.value| == next - 1 - pos
    ensures r.Ok? ==> forall k :: 0 <= k < |r.value| ==> r.value[k] != "" && r.value[k] == Strip(replies[pos + k])
    ensures r.Err? ==> next == |replies| && forall j :: pos <= j < |replies| ==> Strip(replies[j]) != ""
    ensures r.Err? ==> r.error == EOFError
  {
    r, next := ReadUsers(replies, pos);
    if r.Ok? {
      UsersUntil(replies, pos, next - 1);
    }
  }

  lemma UsersInStep(replies: seq<string>, n: nat)
    requires n < |replies|
    ensures Strip(replies[n]) == "" ==> UsersIn(replies[n..]) == []
    ensures Strip(replies[n]) != "" ==> UsersIn(replies[n..]) == [Strip(replies[n])] + UsersIn(replies[n + 1..])
  {
    assert replies[n..][0] == replies[n] && replies[n..][1..] == replies[n + 1..];
  }

  /** One more reply read: an empty one ends the users read so far, any other adds one user. */
  lemma UsersRead(replies: seq<string>, pos: nat, next: nat, users: seq<string>)
    requires pos <= next < |replies|
    requires users + UsersIn(replies[next..]) == UsersIn(replies[pos..])
    ensures Strip(replies[next]) == "" ==> users == UsersIn(replies[pos..])
    ensures Strip(replies[next]) != "" ==>
      (users + [Strip(replies[next])]) + UsersIn(replies[next + 1..]) == UsersIn(replies[pos..])
  {
    UsersInStep(replies, next);
    if Strip(replies[next]) == "" {
      assert users + [] == users;
    } else {
      Seqs.AppendAssoc(users, [Strip(replies[next])], UsersIn(replies[next + 1..]));
    }
  }

  /** The reading loop of `get_users_to_monitor()`. */
  method ReadUsers(replies: seq<string>, pos: nat) returns (r: Result<seq<string>>, next: nat)
    requires pos <= |replies|
    ensures pos <= next <= |replies|
    ensures r.Ok? ==> pos < next && Strip(replies[next - 1]) == "" && r.value == UsersIn(replies[pos..])
    ensures r.Ok? ==> forall j {:trigger Strip(replies[j])} :: pos <= j < next - 1 ==> Strip(replies[j]) != ""
    ensures r.Err? ==> next == |replies| && forall j {:trigger Strip(replies[j])} :: pos <= j < |replies| ==> Strip(replies[j]) != ""
    ensures r.Err? ==> r == Err(EOFError)
  {
    var users: seq<string> := [];
    next := pos;
    while next < |replies| && Strip(replies[next]) != ""
      invariant pos <= next <= |replies|
      invariant forall j {:trigger Strip(replies[j])} :: pos <= j < next ==> Strip(replies[j]) != ""
      invariant users + UsersIn(replies[next..]) == UsersIn(replies[pos..])
    {
      UsersRead(replies, pos, next, users);
      users := users + [Strip(replies[next])];
      next := next + 1;
    }
    if next == |replies| {
      return Err(EOFError), next;
    }
    UsersRead(replies, pos, next, users);
    return Ok(users), next + 1;
  }

  /**
   * `get_discord_settings()`: a channel id is asked for, and required, only when enabled.
   * `answered` is the position just after the reply that answered the yes/no question, or `pos`
   * when the replies ran out before any did.
   */
  method GetDiscordSettings(replies: seq<string>, pos: nat) returns (r: Result<(bool, string)>, answered: nat, next: nat)
    requires pos <= |replies|
    ensures pos <= answered <= next <= |replies|
    ensures answered > pos ==>
      ParseBool(replies[answered - 1], false).Some?
      && forall j :: pos <= j < answered - 1 ==> ParseBool(replies[j], false).None?
    ensures answered == pos ==> r.Err? && forall j :: pos <= j < next ==> ParseBool(replies[j], false).None?
    ensures r.Ok? ==> ParseBool(replies[answered - 1], false) == Some(r.value.0)
    ensures r.Ok? && !r.value.0 ==> next == answered && r.value.1 == ""
    ensures r.Ok? && r.value.0 ==>
      answered < next && r.value.1 != "" && r.value.1 == Strip(replies[next - 1])
      && forall j :: answered <= j < next - 1 ==> Strip(replies[j]) == ""
    ensures r.Err? ==> next == |replies|
    ensures r.Err? && answered > pos ==>
      ParseBool(replies[answered - 1], false) == Some(true)
      && forall j :: answered <= j < next ==> Strip(replies[j]) == ""
    ensures r.Err? ==> r.error == EOFError
  {
    var enable, p := GetBooleanSetting(replies, pos, false);
    if enable.Err? {
      return Err(enable.error), pos, p;
    }
    answered, next := p, p;
    if !enable.value {
      return Ok((false, "")), answered, next;
    }
    while true
      invariant answered <= next <= |replies|
      invariant forall j :: answered <= j < next ==> Strip(replies[j]) == ""
      decreases |replies| - next
    {
      if next == |replies| {
        return Err(EOFError), answered, next;
      }
      var channel := Strip(replies[next]);
      next := next + 1;
      if channel != "" {
        return Ok((true, channel)), answered, next;
      }
    }
  }

  /**
   * `get_all_settings()` from the users question on. The output directory and the clean-up
   * answers are parameters; the replies are read in the order the questions are asked.
   */
  method GetAllSettings(outputDirectory: string, replies: seq<string>, cleanup: (bool, real))
    returns (r: Result<Config>)
    ensures r.Ok? ==> r.value.checkInterval >= 10
    ensures r.Ok? ==> !r.value.compressVideos ==> !r.value.deleteOriginal
    ensures r.Ok? ==> !r.value.uploadVideos ==> r.value.deleteSplitVideoAfterUpload
    ensures r.Ok? ==> r.value.discordEnable == (r.value.discordChannelId != "")
    ensures r.Ok? ==> forall k :: 0 <= k < |r.value.usersToMonitor| ==> r.value.usersToMonitor[k] != ""
    ensures r.Ok? ==> r.value.outputDirectory == outputDirectory && !r.value.devMode
    ensures r.Ok? ==> r.value.removeOldRecordings == cleanup.0 && r.value.minFreeDiskSpace == cleanup.1
    ensures r.Ok? ==> r.value.usersToMonitor == UsersIn(replies)
    ensures r.Err? ==> r.error == EOFError
  {
    var users, p := GetUsersToMonitor(replies, 0);
    assert replies[0..] == replies;
    if users.Err? { return Err(users.error); }
    var interval, p1 := GetCheckInterval(replies, p);
    if interval.Err? { return Err(interval.error); }
    var thumbnail, p2 := GetBooleanSetting(replies, p1, true);
    if thumbnail.Err? { return Err(thumbnail.error); }
    var compress, p3 := GetBooleanSetting(replies, p2, true);
    if compress.Err? { return Err(compress.error); }
    var deleteOriginal := false;
    var p4 := p3;
    if compress.value {
      var d, q := GetBooleanSetting(replies, p3, true);
      if d.Err? { return Err(d.error); }
      deleteOriginal, p4 := d.value, q;
    }
    var upload, p5 := GetBooleanSetting(replies, p4, false);
    if upload.Err? { return Err(upload.error); }
    var deleteSplit := true;
    var p6 := p5;
    if upload.value {
      var d, q := GetBooleanSetting(replies, p5, true);
      if d.Err? { return Err(d.error); }
      deleteSplit, p6 := d.value, q;
    }
    var discord, _, _ := GetDiscordSettings(replies, p6);
    if discord.Err? { return Err(discord.error); }
    r := Ok(Config(outputDirectory, users.value, interval.value, thumbnail.value, compress.value, deleteOriginal,
                   deleteSplit, upload.value, cleanup.0, cleanup.1, discord.value.0, discord.value.1, false));
  }
}
