/** The scheduled opener (bots/scheduled_message.py): a message given on the
    command line, or else one chosen at random for the time of day, is sent to
    the configured channel. The hour and the choice are parameters. */
module ScheduledMessage {
  import opened Wrappers
  import opened Text

  type Hour = h: int | 0 <= h < 24

  datatype TimeOfDay = Morning | Afternoon | Evening | Night

  /** The part of the day an hour belongs to. */
  function PartOfDay(hour: Hour): (t: TimeOfDay)
    ensures t == Morning <==> 5 <= hour <= 11
    ensures t == Afternoon <==> 12 <= hour <= 17
    ensures t == Evening <==> 18 <= hour <= 23
    ensures t == Night <==> 0 <= hour <= 4
  {
    if 5 <= hour < 12 then Morning
    else if 12 <= hour < 18 then Afternoon
    else if 18 <= hour < 24 then Evening
    else Night
  }

  function MessagesFor(t: TimeOfDay): (ms: seq<string>)
    ensures |ms| == 5
  {
    match t
    case Morning => [
      "おはようございます！今日も素晴らしい一日になりますように。",
      "Good morning everyone! How did you sleep?",
      "朝ですね。今日の予定は何ですか？",
      "Morning has broken! What's on everyone's mind today?",
      "新しい一日の始まりですね。今日はどんな日になるでしょうか？"]
    case Afternoon => [
      "こんにちは！お昼ごはんは何を食べましたか？",
      "Afternoon all! How's the day treating you so far?",
      "今日の午後はどうですか？何か面白いことがありましたか？",
      "Taking an afternoon break? What's everyone up to?",
      "お昼の時間ですね。今日の調子はどうですか？"]
    case Evening => [
      "こんばんは！今日はどんな一日でしたか？",
      "Evening everyone! How was your day?",
      "今日も一日お疲れ様でした。何か楽しいことはありましたか？",
      "Winding down for the day? What's on your mind?",
      "夜になりましたね。今日はどんな一日でしたか？"]
    case Night => [
      "夜更かしですね。何をしていますか？",
      "Still up? What's keeping you awake?",
      "静かな夜ですね。何か考え事でもしていますか？",
      "The quiet hours are sometimes the best for deep conversations. Anything on your mind?",
      "夜中ですが、まだ起きている人はいますか？"]
  }

  /** `get_random_message`: `random.choice` over the hour's list, the choice
      being `raw`. */
  function GetRandomMessage(hour: Hour, raw: nat): (m: string)
    ensures m in MessagesFor(PartOfDay(hour))
  {
    MessagesFor(PartOfDay(hour))[raw % 5]
  }

  /** The message sent: the command-line arguments after the script name
      joined by single spaces when there are any, else a random one. */
  function ScheduledText(argv: seq<string>, hour: Hour, raw: nat): (m: string)
    ensures |argv| > 1 ==> m == Join(argv[1..], " ")
    ensures |argv| <= 1 ==> m in MessagesFor(PartOfDay(hour))
  {
    if |argv| > 1 then Join(argv[1..], " ") else GetRandomMessage(hour, raw)
  }

  class ScheduledMessageSender {
    const channelId: int
    /** The messages delivered, with the channel each went to. */
    var sent: seq<(int, string)>

    constructor(channelId: int)
      ensures this.channelId == channelId && sent == []
    {
      this.channelId := channelId;
      sent := [];
    }

    /** `send_message`: nothing is sent when the channel is not found
        (`channelFound`) or the send raises (`sendFails`; the error is
        logged). */
    method SendMessage(channelFound: bool, argv: seq<string>, hour: Hour, raw: nat, sendFails: bool)
      modifies this
      ensures channelFound && !sendFails ==> sent == old(sent) + [(channelId, ScheduledText(argv, hour, raw))]
      ensures !channelFound || sendFails ==> sent == old(sent)
    {
      if !channelFound {
        return;
      }
      var message := ScheduledText(argv, hour, raw);
      if !sendFails {
        sent := sent + [(channelId, message)];
      }
    }
  }
}
