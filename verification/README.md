# Verification of ircat

ircat is an IRC daemon whose nodes federate over server-to-server links. This project models its state
and protocol code in Dafny and proves properties of whole runs.

Strings are sequences of bytes, written as characters. Times are unix nanoseconds. Every handler is one
atomic step with one reading of the clock; a link delivers its messages in order and loses none, as long as
each of them can be written on one line; map iteration visits keys in any order. The writer of a link closes
it at the first message that does not encode (internal/federation/conn.go:43-48,
internal/federation/federation.go:312-318): `BurstWire` says exactly which worlds can be sent in a burst, and
carries the burst theorem over to the bytes of the link.

## How it is laid out

The state of a node exists twice. `State.dfy` holds it as plain values, with every state operation as a
function. `Channel.dfy` and `World.dfy` hold it in mutable objects, with loops, indexes and aliasing, and
each method is proved to do to its object what the function does to its value. The handlers
(`ModeHandlers`, `Link`, `Burst`, `ClientHandlers`, `FanOut`, `Teardown`, `Server`, `Persistence`) run on
the objects and are proved to compute the functions in `ModeSpec`, `FedSpec`, `Clients`, `SquitFlood` and
`Records`. The theorems about runs are about those functions:

* Federation: `ModeProofs` (the echo of a MODE line), `ModeReplicas` and `ModeStrays` (which MODE lines
  replicate), `ModeWire` (the echo on the wire), `BurstTheorem`, `ChannelMerge`, `BurstExchange` and `BurstWire`
  (state transfer), `Mirror` and `MirrorRuns` (every run of client commands, followed by a peer),
  `CollisionTheorem`, `CollisionTie` and `CollisionEnds` (nick collisions over all interleavings), `SquitFlood`
  (the loss of a server on any topology).
* Local state: `ModeMeaning` and `JoinRules` (what the mode letters do, and whom they let in and let speak),
  `Authority` (every run without an operator), `Safety` and `SendableRuns` (every run of client commands),
  `Indexes` (every run of the user indexes), `FanOut` and `Teardown` (who hears of a quit, and how often), `Glob`
  (masks).
* The wire: `WireRoundTrip`, `WireStable`, `WireLines`, and the code itself in `Wire`.
* Engines: `FloodControl`, `LogRotation`, `Records`, `LogRing`, `Whowas`, and the configuration parser in
  `YamlText`, `YamlInline`, `YamlGrammar`, `YamlUnique`, `YamlRoot`, `YamlPrint` and `YamlParser`.

Where a comment in the source and the code differ, the model follows the code:

* `globMatch` compares characters before it looks for `*`, so a `*` in the subject can be taken literally
  by a `*` of the pattern. `Glob.ExactSubjects` gives the exact set of subjects for which this is harmless.
* `World.RemoveUser` does not take the user out of its channels, although the comment in `HandleSquit`
  says so. `Server.HandleSquit` is stated with the memberships left behind.
* The comment on `handleRemoteNick` says that equal timestamps keep the present record; the code removes
  both.
* The direction accumulator of `applyChannelModes` is meant to print a sign only when it changes. The last
  byte written is always a mode letter, so a sign is printed in front of every letter (`+n+t`).
* `broadcastQuit` sends the real prefix on anonymous channels, where `deliverPerUserChannels` hides it.
* The parser of a configuration file stops after the block at its root and ignores the rest of the file
  without an error: a root sequence ends at the first line that is not an item, and a root mapping that is
  indented ends at the first line further left. `YamlRoot.RootUsesAll` says of any lines when none is ignored.

Six properties one would expect do not hold in general, and the exact condition is proved instead:

* Replicas do not always agree after a MODE line. The federation side has no case for e, I and q and leaves
  their arguments to the letters after them. `ModeStrays.ReplicableKeepsAgreement`: a mode word keeps all
  agreeing replicas of a `#` or `&` channel in agreement, whatever the at most n arguments that come with it, if
  and only if no o, v or b that can still get an argument follows an e, I or q, every +k that does so is followed
  by a -k, and every +l that does so has a -l as the l before it and the l after it, not counting a +l that can get
  no argument. A -l alone does not put a stray limit right: when the stray +l set the limit to 0 here, the -l
  changes nothing here and is not sent. A client's line has room for thirteen arguments.
* The echo of a MODE line does not always arrive. It has a sign in front of every letter, and one that does not
  fit 512 bytes closes the link instead. `ModeWire.EchoEncodes` and `ModeWire.EchoArrives`: it arrives if and only
  if the sender's hostmask, the channel's name, the letters and the arguments, with a space before each argument,
  have at most 501 bytes together. `ModeWire.LongEchoCutsTheLink`: the echo of 63 times `+im-im`, which a client
  can send, does not.
* The copies of a channel that existed on both sides before linking do not always agree after the bursts on what
  the bursts carry: members, operators, voices, modes other than a and r, key, limit, bans and topic. The members
  of the younger copy lose their flags on their own node and keep them on the other, and two keys, limits or
  topics are exchanged. `BurstExchange.BurstsAreExchanged`: with only their own users in it, the copies agree if
  and only if at most one had a key, or both the same, likewise for the limit and the topic, and the younger copy
  had no operator and nobody with a voice. A channel that only one side had agrees with its replica if and only
  if it is +n and +t, as a mode word turns nothing off.
* A peer does not always follow its node. A QUIT that comes over a link removes the user's record and not its
  memberships, so a channel that goes at home with its last member stays on the peer, and whoever founds it anew at
  home is its operator there and not on the peer (`MirrorRuns.QuitThenJoinDiverges`). `MirrorRuns.QuitFollows`: a
  peer that mirrors the node still does after a QUIT if and only if the user had left all `#`, `&` and `+` channels
  before. `MirrorRuns.RunIsMirrored`: with users who part before they quit and replicable mode lines it does over
  every run of client commands.
* A key of the configuration file cannot always be written in single quotes: the scan for the closing quote stops
  at a doubled quote. `YamlInline.SingleQuotedKeyReads`: it reads back if and only if it has no quote in it.
* A burst does not always arrive. `MODE #x +lk 5 :a b` sets a key that cannot be a middle parameter, and the
  mode line of the next burst closes the link (`BurstWire.SpacedKeyCutsTheLink`).

## Model

| member | source | states |
|---|---|---|
| CaseMap.FoldLoop | internal/state/casemap.go:50-60 | the byte loop computes the fold of every byte under the mapping |
| CaseMap.Equal | internal/state/casemap.go:84-94 | true exactly when the two folds are equal, lengths included |
| CaseMap.FoldIdempotent | internal/state/casemap.go:50-80 | folding a folded string changes nothing |
| CaseMap.FoldIsSameName | internal/state/casemap.go:62-94 | two names fold alike if and only if they are the same letter by letter up to case, under rfc1459 also up to the four pairs of brackets |
| Numbers.ParseFormat | internal/federation/federation.go:550-550 | a timestamp printed in decimal reads back as the same 64-bit integer |
| Numbers.ItoaPositive | internal/state/channel.go:837-849 | the right-to-left digit loop fits its 20-byte buffer and prints the decimal form; a negative number gives nothing |
| Glob.GlobMatch | internal/state/channel.go:687-711 | the one-star backtracking loop ends on every input and computes Matches |
| Glob.Sound | internal/state/channel.go:687-711 | whatever matches is covered by the recursive meaning of `*` and `?` |
| Glob.Complete | internal/state/channel.go:687-711 | a subject without `*` that the pattern covers is matched |
| Glob.ExactSubjects | internal/state/channel.go:687-711 | the matcher agrees with the meaning of every pattern if and only if the subject has no `*` |
| Clients.MatchIsCover | internal/state/channel.go:479-489 | a list matches a hostmask when some folded mask covers the folded hostmask; both directions without `*` |
| Clients.BanVerdict | internal/server/handler_channels.go:173-193 | past invite, key and limit a user is refused exactly when some ban covers it and no exception does |
| HostBans.HostMaskMeans | internal/state/channel.go:479-489 | `*!*@host` matches the users whose host is that one up to case, and nobody else |
| Channel.Channel.MatchesList | internal/state/channel.go:479-489 | the walk over a mask list, in any order, finds a match exactly when there is one |
| Channel.Channel.AdoptOlderTS | internal/state/channel.go:173-190 | a strictly older positive timestamp is taken over and nothing else |
| Channel.Channel.ResetMembershipFlags | internal/state/channel.go:196-203 | all members stay and lose all flags |
| Channel.Channel.AddMember | internal/state/channel.go:270-290 | only a new member is added; the first one gets the flags of its channel kind |
| Channel.Channel.SetBoolMode | internal/state/channel.go:347-382 | one mode is set, no other, and the result says whether it changed |
| Channel.Channel.SetLimit | internal/state/channel.go:419-431 | negative limits are stored as zero; the result says whether the limit changed |
| Channel.Channel.AddToList | internal/state/channel.go:441-451 | a new mask is stamped, a known mask keeps its time |
| Channel.Channel.RemoveFromList | internal/state/channel.go:453-463 | the mask goes from its list and from no other |
| Channel.Channel.ModeString | internal/state/channel.go:724-764 | the canonical mode word in fixed order, key and limit as parameters |
| Channel.Channel.RestoreState | internal/state/channel.go:774-822 | everything but name, creation time, members and invitations is overwritten from the record |
| World.World.FindByNick | internal/state/world.go:91-98 | the object found is the one both indexes hold for that nick |
| World.World.AddUser | internal/state/world.go:111-128 | refuses an empty or taken nick and changes nothing then; otherwise both indexes gain the same object under a new ID |
| World.World.RemoveUser | internal/state/world.go:132-142 | the user leaves both indexes; channels are not touched |
| World.World.RenameUser | internal/state/world.go:149-173 | the nick index follows the object to its new key; a change of case alone always succeeds |
| World.World.EnsureChannel | internal/state/world.go:203-213 | returns the channel filed under the fold, making a fresh one with +nt if there is none |
| World.World.JoinChannel | internal/state/world.go:226-245 | the member is added with founder flags on a new channel, operator rights on an empty safe +r channel; the result says whether it is new |
| World.World.PartChannel | internal/state/world.go:251-278 | the member goes, and the channel with it when it is empty, unless it is safe and +r |
| World.World.UserChannels | internal/state/world.go:303-313 | lists exactly the channels the user is a member of, each once, in some order |
| State.FindByNickIsSearch | internal/state/world.go:91-98 | the indexed lookup is a linear search under the case mapping |
| State.NickTakenUpToCase | internal/state/world.go:91-98 | a nick finds a user if and only if some user has it up to case, and then that user |
| Indexes.IndexesAgree | internal/state/world.go:91-173 | over every run the indexes hold the same users, no two nicks fold alike, and lookups are linear searches |
| Indexes.IDsAreFresh | internal/state/world.go:111-128 | IDs are given out in increasing order, so none is reused |
| ModeHandlers.ApplyChannelModes | internal/server/handler_mode.go:122-329 | the loop over mode word and arguments leaves the channel, the echo and the unknown letters that LocalRun gives |
| ModeHandlers.ApplyRemoteChannelMode | internal/federation/federation.go:1054-1141 | the federation loop leaves the channel that RemoteRun gives |
| ModeHandlers.FlushDir | internal/server/handler_mode.go:135-139 | as the echo never ends in a sign, the direction is written every time |
| ModeProofs.EchoIsCanonical | internal/server/handler_mode.go:122-329 | the echo fed back from the same channel gives the same channel, the same echo and no unknown letter, for the whole alphabet |
| ModeStrays.ReplicableKeepsAgreement | internal/federation/federation.go:1054-1141 | for all agreeing replicas and all arguments that a line can carry, at most n, running a line on one node and its echo on the other keeps agreement, if and only if the word is replicable with n arguments |
| ModeReplicas.ShiftedRunAgrees | internal/federation/federation.go:1054-1141 | after an e, I or q a rest of a word that cannot stray with the arguments left leads to agreement whatever arguments the other node reads |
| ModeStrays.EchoKeepsAgreement | internal/federation/federation.go:1054-1141 | it is enough that the echo is replicable with its own number of arguments |
| ModeStrays.ReplicasAgree | internal/federation/federation.go:1054-1141 | in particular every line without e, I and q keeps agreement, with any arguments |
| ModeStrays.ListModesShiftArguments | internal/federation/federation.go:1112-1138 | `+eb x y` bans y here and x on an equal replica |
| ModeStrays.LimitIsNotPutRight | internal/federation/federation.go:1084-1098 | `+el-l` does not keep agreement, although a -l follows |
| ModeStrays.ArgumentsRunOut | internal/protocol/parse.go:82-108 | k times o in front of `eb` keep agreement with n arguments if and only if n is less than k + 2: letters that no argument reaches do no harm |
| ModeWire.EchoEncodes | internal/server/handler_mode.go:96-106 | the echo of a received line encodes if and only if it fits 512 bytes; it has at most two characters for each one of the mode word, and no longer arguments |
| ModeWire.EchoArrives | internal/federation/federation.go:961-983 | the bytes of the echo of a replicable line, read and handled by the peer, make its copy agree; an echo too long closes the link and nothing is written |
| ModeWire.LongEchoCutsTheLink | internal/federation/conn.go:43-53 | `MODE #x` with 63 times `+im-im` is a line that parses, and its echo on a new channel closes the link |
| ModeSpec.LocalRunFrame | internal/server/handler_mode.go:122-329 | no MODE line renames a channel or moves members in or out |
| ModeSpec.RemoteRunFrame | internal/federation/federation.go:1054-1141 | nor does one that arrives over a link |
| ModeMeaning.SwitchLetter | internal/server/handler_mode.go:158-174 | an operator's i, m, n, p, s, t or a switches that mode and no other; an r does so on safe channels only |
| ModeMeaning.KeyLetter | internal/server/handler_mode.go:175-194 | +k sets the key and -k takes it away |
| ModeMeaning.LimitLetter | internal/server/handler_mode.go:195-217 | +l sets any limit that is a number from 0 on, and nothing else; -l takes it away |
| ModeMeaning.MemberLetter | internal/server/handler_mode.go:218-242 | o is the operator flag and v the voice of the member with that nick |
| ModeMeaning.ListLetter | internal/server/handler_mode.go:243-322 | b changes the bans, e the exceptions, I the invitation exceptions, q the quiets, by one mask, and nothing else |
| ModeMeaning.OtherLetter | internal/server/handler_mode.go:323-325 | any other letter changes nothing and is reported |
| ModeMeaning.EchoTellsChange | internal/server/handler_mode.go:122-329 | a letter is echoed, with its sign and the argument it took, if and only if it changed something, o and v if there was such a member |
| Link.Link.HandleRemoteNick | internal/federation/federation.go:660-770 | rename, announcement and the three collision outcomes: world, KILL sent, connection cut |
| Link.Link.HandleRemoteService | internal/federation/federation.go:782-819 | a service record is added unless its name is taken |
| Link.Link.HandleRemoteQuit | internal/federation/federation.go:823-837 | only a remote user is removed |
| Link.Link.HandleRemoteJoin | internal/federation/federation.go:852-886 | the member joins; an older timestamp is adopted and clears all flags |
| Link.Link.HandleRemotePart | internal/federation/federation.go:890-905 | only a remote user is parted |
| Link.Link.HandleRemoteKick | internal/federation/federation.go:911-929 | the victim is parted wherever it lives |
| Link.Link.HandleRemoteTopic | internal/federation/federation.go:936-949 | the topic is replaced on a known channel |
| Link.Link.HandleRemoteMode | internal/federation/federation.go:961-983 | modes apply to known `#` and `&` channels only |
| Link.Link.HandleRemoteKill | internal/federation/federation.go:995-1027 | a remote target is removed, a local one has its connection cut |
| Link.Link.Dispatch | internal/federation/federation.go:351-400 | each message has the world, the replies and the cut connections that Handle gives; a PING is answered |
| Mirror.RenameReplicates | internal/federation/federation.go:665-679 | a client's change of nick at home and its line on a peer that has a copy: the copy is found under the new nick and otherwise as it was, nobody under the old one, no other user is touched, and members are seen alike again |
| MirrorRuns.CommandIsFollowed | internal/federation/federation.go:660-983 | whatever a client of the home node does (NICK, JOIN, PART, KICK, TOPIC, MODE, INVITE, registering, closing), the peer that handles the forwarded line knows the same nicks and agrees on the `#`, `&` and `+` channels again |
| MirrorRuns.RunIsMirrored | internal/server/federation.go:456-618 | the same over every run of client commands |
| MirrorRuns.BurstThenRun | internal/federation/federation.go:505-640 | a blank peer that replays the node's burst mirrors it, and goes on to mirror it over every run |
| MirrorRuns.QuitFollows | internal/federation/federation.go:823-837 | after a QUIT the peer is a mirror if and only if the user was in no such channel |
| MirrorRuns.QuitThenJoinDiverges | internal/federation/federation.go:823-837 | the last member quits and another user joins: an operator at home, no operator on the peer |
| Burst.SendBurst | internal/federation/federation.go:505-640 | whatever order the maps are walked in, the lines sent are those of some burst order |
| Burst.ChannelBurst | internal/federation/federation.go:545-638 | joins of local members, then topic, mode word, bans and flags if there was any |
| BurstTheorem.BurstIsFaithful | internal/federation/federation.go:505-640 | replaying a burst adds exactly the sender's local users and a replica of each channel with a local member, merges those that the receiver had, leaves its users and all other channels as they were, keeps its indexes valid, and makes it neither answer nor cut a connection |
| ChannelMerge.ChannelMerges | internal/federation/federation.go:852-886 | the lines of a standard channel arriving where the channel exists: members, modes and bans of both, the sender's key, limit and topic, the older timestamp, and no flags for those who had them under the younger one |
| ChannelMerge.SharedChannelAgrees | internal/federation/federation.go:505-640 | the lines of one channel that both nodes had, exchanged: the copies have the older timestamp and agree, topic included, if and only if keys, limits and topics do not clash and the younger copy had no flags |
| BurstExchange.BurstsAreExchanged | internal/federation/federation.go:505-640 | two nodes without a common nick replay each other's whole bursts: users are exchanged, and every channel with only own users agrees if and only if what both had is compatible, or, when one had it, if and only if it is +n and +t |
| BurstFrame.RunChangesOne | internal/federation/federation.go:852-983 | JOIN, TOPIC and MODE lines of a channel that is there change no other channel, and that one stays under its name |
| BurstShape.BurstLinesAre | internal/federation/federation.go:505-640 | what the lines of a burst are does not depend on the order in which the maps are walked |
| BurstWire.LinkSurvivesBurst | internal/federation/conn.go:43-53 | the link survives the burst if and only if names have no spaces, texts no control characters and every line fits 512 bytes |
| BurstWire.ReadsBack | internal/federation/conn.go:25-53 | messages that encode come out of the byte stream as they went in |
| BurstWire.BurstArrives | internal/federation/federation.go:505-640 | the burst theorem over the bytes that the link writes and the peer reads |
| BurstWire.SpacedKeyCutsTheLink | internal/server/handler_mode.go:175-210 | `+lk 5 :a b` gives a channel whose mode line does not encode |
| BurstUsers.UserLineEffect | internal/federation/federation.go:660-819 | a user line whose nick is free files a copy of the user; nothing is sent back and no connection is cut |
| BurstUsers.OlderAnnouncement | internal/federation/federation.go:683-711 | an announcement without a timestamp: the seventh parameter is the real name, and a plus is not part of the modes |
| BurstUsers.BareServiceIsThePeers | internal/federation/federation.go:782-819 | a SERVICE line without a sender makes a service of the peer |
| SendableRuns.RunsStaySendable | internal/server/handler.go:393-423 | every run of client commands with nicks free of `!` leaves a state fit for a burst |
| SendableRuns.NamesStayPlain | internal/server/handler_channels.go:627-646 | every run of client commands leaves only channel names that are single words without commas behind one of the four prefixes |
| SendableRuns.ValidIsPlain | internal/server/handler_channels.go:627-646 | a join accepts exactly such names up to the length limit, 50 by default |
| SendableRuns.JoinNames | internal/server/handler_channels.go:676-721 | what a join makes of a safe channel's name: a fresh ID behind `!!`, itself when it has an ID, or a channel there is |
| BurstReplay.ChannelArrives | internal/federation/federation.go:852-886 | the lines of one channel build its replica: members, flags, topic, key, limit, bans and timestamp |
| BurstChannels.ModeWordRun | internal/federation/federation.go:1054-1141 | the mode word of a channel, interpreted on a fresh one, gives its modes plus the default +nt |
| CollisionTheorem.LowerTimestampWins | internal/federation/federation.go:660-770 | in every interleaving of two bursts and what follows, the older user stays on its node; at rest the younger user's record and connection are gone and nobody holds the nick on its node |
| CollisionEnds.ExchangeEnds | internal/federation/federation.go:660-770 | no run has more effective events than a number fixed at its start |
| CollisionEnds.ComesToRest | internal/server/conn.go:195-221 | every net in which only open connections are closing comes to rest within that number |
| CollisionEnds.CollisionIsSettled | internal/federation/federation.go:660-770 | whatever has happened since the bursts were sent, the exchange can be carried on to rest, and wherever it comes to rest the older user has won |
| CollisionTheorem.OneConnectionIsCut | internal/server/federation.go:84-103 | throughout, at most one connection has the nick that is to be dropped, so it does not matter which is found first |
| CollisionTheorem.LeastTimestampRemains | internal/federation/federation.go:705-757 | announcements with distinct timestamps, in any order, leave the oldest |
| CollisionTheorem.UntimedIsReplaced | internal/federation/federation.go:712-757 | an announcement or a holder without a timestamp: the holder is replaced, cut off if local, and no KILL is sent |
| CollisionTie.BothLose | internal/federation/federation.go:712-735 | equal timestamps: in every interleaving that comes to rest both users and both connections are gone, and the nick is free on both nodes |
| CollisionEnds.TieIsSettled | internal/federation/federation.go:660-770 | and every such exchange can be carried on to rest |
| CollisionTheorem.KillClosesLocal | internal/federation/federation.go:995-1027 | a KILL of a local user closes the user's connection, and with it goes the user from the world and all channels |
| CollisionTheorem.KillRemovesRemote | internal/federation/federation.go:995-1027 | a KILL of a remote user removes that record and no other |
| CollisionTheorem.KillOfNobody | internal/federation/federation.go:995-1010 | a KILL of nobody does nothing |
| Collision.LowReacts | internal/federation/federation.go:995-1027 | no message of the exchange takes the older user from its node |
| Collision.HighReacts | internal/federation/federation.go:705-757 | the older user's announcement evicts the younger and has its connection cut; a KILL of the nick leaves no copy of the older user |
| Server.Server.SquitSeenRecently | internal/server/federation.go:117-136 | expired entries go; a repeat within five seconds is recognised, anything else is noted |
| Server.Server.HandleSquit | internal/server/federation.go:166-221 | every user of the peer goes, each seen quitting exactly once, and the loss is forwarded on every other link; a repeat and an empty peer name do nothing |
| Server.Server.DropLocalUser | internal/server/federation.go:84-103 | one connection with exactly that nick is cut, if there is one |
| SquitFlood.FloodReachesEveryone | internal/server/federation.go:166-221 | on any topology no node forwards a loss twice, and at rest every node connected without the lost peer has no user homed on it |
| SquitFlood.FloodEnds | internal/server/federation.go:117-136 | no run is longer than the messages in flight plus a fan-out for every pair of node and unseen loss |
| SquitFlood.RepeatsLastFiveSeconds | internal/server/federation.go:117-136 | a loss heard of again within five seconds is ignored, and from then on it is news again |
| SquitFlood.ExpiredEntriesGo | internal/server/federation.go:117-136 | hearing of a loss drops exactly the entries that have expired; a missing reason is a net split |
| SquitFlood.OthersStay | internal/server/federation.go:166-221 | over every run users of servers that are not lost stay on every node |
| FanOut.DeliverPerUserChannels | internal/server/federation.go:389-423 | each connected local peer sharing a channel gets the message exactly once, nobody else, masked as a shared channel demands |
| FanOut.WhoSeesTheName | internal/server/federation.go:389-423 | only local peers are told, under the anonymous prefix when every channel they share is +a and under the real one when none is |
| Teardown.BroadcastQuit | internal/server/conn.go:227-256 | each connection sharing a channel hears exactly once while the user leaves channel after channel, and the channels left are those of PartAll |
| Teardown.PartNext | internal/server/conn.go:239-251 | leaving one more channel is one step from having left some to having left one more |
| Teardown.OneByOne | internal/server/conn.go:239-251 | leaving the channels one by one, in any order, is leaving them all at once |
| Server.Server.Close | internal/server/conn.go:195-221 | the peers in shared channels hear of it exactly once, every link is told, and the connection, the memberships and the user record are gone |
| ClientHandlers.CheckJoinPolicy | internal/server/handler_channels.go:173-193 | the first of +i, +k, +l, +b that refuses; a needed invitation is used up whatever the verdict |
| JoinRules.JoinExactly | internal/server/handler_channels.go:61-193 | who knocks becomes a member if and only if invited or excepted under +i, with the key if there is one, below the limit if there is one, and not banned unless excepted; a needed invitation is used up, and nothing else changes |
| JoinRules.JoinByMeaning | internal/server/handler_channels.go:173-193 | the same by the meaning of masks, for hostmasks without `*` |
| JoinRules.RefusalNamesFirst | internal/server/handler_channels.go:98-113 | a refusal names the first of +i, +k, +l and +b that stands in the way |
| JoinRules.InvitationIsUsedUp | internal/server/handler_channels.go:173-183 | an invitation lets its user in once |
| JoinRules.InviteExactly | internal/server/handler_channels.go:202-248 | an invitation is recorded if and only if it comes from a member, an operator under +i, and goes to no member |
| JoinRules.JoinFounds | internal/state/channel.go:270-290 | whoever joins a channel that does not exist founds it: alone in it, an operator unless it is a `+` channel, and its creator if it is a `!` channel |
| JoinRules.FounderMaySetModes | internal/server/handler_mode.go:40-107 | the founder's next mode line takes effect, but on `+` channels |
| JoinRules.LastMemberLeaves | internal/state/world.go:251-278 | a safe channel with +r outlives its last member with all its settings, any other channel is gone |
| JoinRules.ReopAfterPart | internal/state/world.go:226-245 | the first to come back to it is its operator, and not its creator |
| JoinRules.ListsWork | internal/server/handler_mode.go:243-322 | after +I whom the mask covers is not refused for want of an invitation, after +e not for a ban; after +b refused unless excepted, after +q silent unless an operator or voiced |
| JoinRules.SpeakExactly | internal/server/handler_message.go:126-165 | operators and voiced members may speak; others if no +n keeps them out, no +m and no quiet silences them |
| ClientHandlers.SpeakPolicy | internal/server/handler_message.go:126-165 | the checks in source order |
| ClientHandlers.JoinOne | internal/server/handler_channels.go:61-117 | policy first on an existing channel, then the join |
| ClientHandlers.PartOne | internal/server/handler_channels.go:429-458 | only members part |
| ClientHandlers.KickOne | internal/server/handler_channels.go:508-550 | only operators kick, only members are kicked |
| ClientHandlers.ModeOne | internal/server/handler_mode.go:40-107 | only operators of channels with modes change them; what is broadcast and bounced is the echo and the unknown letters |
| ClientHandlers.TopicOne | internal/server/handler_channels.go:559-607 | only members set topics, and only operators under +t |
| ClientHandlers.InviteOne | internal/server/handler_channels.go:202-248 | only members invite, only operators under +i, and never a member |
| Authority.KickExactly | internal/server/handler_channels.go:508-550 | a kick takes the target out if and only if it comes from an operator and the target is a member |
| Authority.PartExactly | internal/server/handler_channels.go:429-458 | a member leaves, and nobody else is moved |
| Authority.TopicExactly | internal/server/handler_channels.go:559-607 | a topic is set if and only if it comes from a member, under +t from an operator |
| Authority.ModeRefused | internal/server/handler_mode.go:40-75 | a mode line of anybody but an operator changes nothing, nor does any on a `+` channel |
| Authority.CloseExactly | internal/server/conn.go:195-256 | closing takes the user out of every channel and the world, and with it the channels left empty, but for safe ones with +r |
| Authority.NothingWithoutOperators | internal/server/handler_mode.go:40-107 | over every run in which the operators of a channel are idle its settings and flags stay, under +t its topic, under +i its invitations, and its idle members |
| Safety.WorldStaysSafe | internal/state/world.go:226-278 | over every run of client commands members resolve to users, and an empty channel is safe with +r or restored and not yet joined |
| Safety.ClosedUserIsGone | internal/server/conn.go:195-256 | a closed user is in no channel ever after |
| Safety.CloseSafe | internal/server/conn.go:195-256 | closing keeps the world safe |
| Wire.Parse | internal/protocol/parse.go:17-110 | the code computes ParseLine, errors included |
| Wire.ParseTagSection | internal/protocol/parse.go:116-142 | the tag loop computes ParseTags; later tags override earlier ones |
| Wire.UnescapeTagValue | internal/protocol/parse.go:144-175 | the loop computes Unescape, with its fast path |
| Wire.EscapeTagValue | internal/protocol/encode.go:134-157 | the loop computes Escape, with its fast path |
| Wire.Bytes | internal/protocol/encode.go:14-88 | the code computes EncodeIn with the tags in sorted order, errors included |
| WireRoundTrip.UnescapeEscape | internal/protocol/encode.go:134-157 | unescaping an escaped value gives the value |
| WireRoundTrip.EscapeIsSafe | internal/protocol/encode.go:134-157 | escaped text has no space, semicolon, CR or LF |
| WireRoundTrip.RoundTrip | internal/protocol/encode.go:14-88 | whenever a well-formed message encodes, parsing the line gives exactly that message |
| WireStable.ReencodingIsStable | internal/protocol/parse.go:17-110 | a parsed line re-encodes within three bytes, always below 510, and parses to the same message |
| WireStable.AtMostFifteen | internal/protocol/parse.go:82-108 | never more than fifteen parameters |
| WireLines.LineRead | internal/protocol/parse.go:17-110 | however a line is written (gaps of any length, the last parameter with or without colon), it is read as the message meant, or refused for its tags or its command |
| WireLines.StopsShort | internal/protocol/parse.go:17-66 | a line that stops before its command is empty, one that stops inside its tags has bad tags |
| WireLines.LineEnds | internal/protocol/parse.go:17-30 | CR LF, either alone or neither ends a line of at most 512 bytes |
| WireLines.SectionMeans | internal/protocol/parse.go:116-142 | a tag section is refused if and only if a key is empty; the last tag with a key gives its value, one without `=` the empty value |
| WireLines.LooseBackslashes | internal/protocol/parse.go:144-175 | a backslash before any other character is dropped, and so is one at the end |
| WireLines.CommandCaseIsIgnored | internal/protocol/parse.go:75-79 | lines that differ only in the case of the command's letters are read alike |
| WireLines.CommandsAreCapitals | internal/protocol/parse.go:75-79 | a command that is read is a word of the line in capitals, letter by letter |
| WireLines.WhyNotWritten | internal/protocol/encode.go:14-88 | which of the errors comes for which message: too many parameters, a bad parameter, or the length |
| KeyOrder.SortKeys | internal/protocol/encode.go:30-37 | tag keys are written sorted, each once |
| KeyOrder.SortedIsUnique | internal/protocol/encode.go:30-37 | so the encoding of a message does not depend on map order |
| FloodControl.TokenBucket.Take | internal/server/floodcontrol.go:49-66 | refill, cap, and one token per success |
| FloodControl.NewBucket | internal/server/floodcontrol.go:27-45 | starts full; non-positive settings count as one |
| FloodControl.RunIsBounded | internal/server/floodcontrol.go:49-66 | tokens stay between zero and burst, lastRefill is the running maximum of the clock, spent and left tokens are covered |
| FloodControl.WindowBound | internal/server/floodcontrol.go:49-66 | in any window successes are at most burst plus rate times the advance of the highest clock reading |
| FloodControl.PacedNeverRefused | internal/server/floodcontrol.go:49-66 | a client whose requests each come a whole token's time after the one before is never refused |
| LogRotation.JSONLSink.Handle | internal/events/jsonl.go:69-90 | appends the line and rotates when the file is full |
| LogRotation.JSONLSink.Rotate | internal/events/jsonl.go:107-152 | files stay numbered 1 to k without gaps; the new one is 1 |
| LogRotation.JSONLSink.ShiftUp | internal/events/jsonl.go:131-141 | every surviving file moves up by one, onto a free name |
| LogRotation.ListRotated | internal/events/jsonl.go:156-186 | lists exactly the rotated files in increasing order, whatever their numbers |
| LogRotation.Conservation | internal/events/jsonl.go:69-152 | what was on disk and what is written equals what was deleted and what is on disk, in order |
| LogRotation.RotationBounds | internal/events/jsonl.go:107-152 | as many files as rotations up to the limit; lines are lost exactly when there were more rotations |
| LogRotation.LogIsSuffix | internal/events/jsonl.go:69-152 | the files hold a suffix of the stream, all of it until the first deletion, then a full set of full files |
| Persistence.BanRecordsFromMap | internal/server/persistence.go:70-79 | one record per mask, in the order of the walk; reading them back gives the map |
| Persistence.BanRecordsToMap | internal/server/persistence.go:82-88 | the map of the records, the last of equal masks winning |
| Persistence.PersistChannel | internal/server/persistence.go:42-64 | restoring the record into a fresh channel gives the channel back, emptied |
| Persistence.RestorePersistentChannels | internal/server/persistence.go:15-37 | the boot loop computes RestoreAll on the objects |
| Records.ModeWordSurvives | internal/state/channel.go:774-805 | reading back a mode word gives all eight boolean modes |
| Records.PersistRestore | internal/server/persistence.go:15-88 | restoring a persisted channel into a fresh one gives everything back but members, invitations and creation time |
| Records.RestartKeepsChannels | internal/server/persistence.go:15-88 | a restart from records in any order brings back exactly the channels there were |
| Whowas.Whowas.Record | internal/state/whowas.go:59-76 | growing or wrapping, the ring holds the last cap entries with a nick |
| Whowas.Whowas.Lookup | internal/state/whowas.go:80-109 | the answer is the newest-first, fold-filtered, truncated view of those entries |
| Whowas.FindIsFilter | internal/state/whowas.go:80-109 | exactly the entries with that nick |
| Whowas.WhatIsAnswered | internal/state/whowas.go:80-109 | of the last cap entries the newest max for the nick, or all of them |
| Whowas.FindIsNewestFirst | internal/state/whowas.go:80-109 | what was recorded later is found first |
| LogRing.RingBuffer.Append | internal/logging/ring.go:78-86 | the entry gets the next number; the oldest is overwritten when full |
| LogRing.RingBuffer.Snapshot | internal/logging/ring.go:119-138 | the last capacity entries in order, before and after wrapping |
| LogRing.RingBuffer.Since | internal/logging/ring.go:101-115 | the held entries above the number, in order |
| LogRing.PollerIsFaithful | internal/logging/ring.go:78-138 | over appends and polls numbers strictly increase, entries are authentic, and the count missed is the overrun |
| LogRing.PollingFromTheStart | internal/logging/ring.go:78-138 | from an empty log; a client that keeps up gets every entry |
| YamlText.TryMappingKey | internal/config/yaml_parser.go:351-390 | the scan computes MappingKey |
| YamlInline.BareKeyRoundTrip | internal/config/yaml_parser.go:351-390 | a key, a colon, a gap and text read back as that key and that text, for every key without a quote in front or a colon before a blank |
| YamlInline.QuotedKeyRoundTrip | internal/config/yaml_parser.go:351-390 | in double quotes any key at all reads back |
| YamlText.ParseFlowSequence | internal/config/yaml_parser.go:275-318 | the loop computes FlowItems, an open quote being an error |
| YamlInline.FlowRoundTrip | internal/config/yaml_parser.go:275-318 | plain tokens and tokens in single or double quotes, written with commas, and spaces after them or not, read back as the tokens |
| YamlInline.EmptyItemsSkipped | internal/config/yaml_parser.go:275-318 | nothing between two commas, or behind the last one, is no item |
| YamlInline.OpenQuoteRefused | internal/config/yaml_parser.go:275-318 | a quote that is not closed is an error |
| YamlInline.NoEmptyKey | internal/config/yaml_parser.go:372-390 | a colon with nothing in front of it is no key |
| YamlInline.QuotesReadBack | internal/config/yaml_parser.go:430-466 | any text reads back from single quotes with its quotes doubled, and from double quotes with its escapes |
| YamlInline.SingleQuotedKeyReads | internal/config/yaml_parser.go:351-371 | a key in single quotes reads back if and only if it has no quote in it |
| YamlPrint.PrintedReadsBack | internal/config/yaml_parser.go:128-339 | a document of nested mappings, sequences, texts, nulls and one-line sequences, written in block style, has one parse, which uses every line and gives the document |
| YamlPrint.OpenRowRefused | internal/config/yaml_parser.go:251-269 | a one-line sequence with an open quote is an error, and not a text |
| YamlPrint.WideDashRead | internal/config/yaml_parser.go:174-200 | any number of spaces behind a dash |
| YamlParser.YamlParser.ParseDocument | internal/config/yaml_parser.go:109-124 | ends on every line list; success means a derivation, failure that there is none; every line is used if and only if the lines are uniform, as they always are under a root mapping at indent 0; a document written in block style is read back |
| YamlParser.YamlParser.ParseBlock | internal/config/yaml_parser.go:128-139 | success exactly when the lines have a derivation at that indent |
| YamlParser.YamlParser.ParseMapping | internal/config/yaml_parser.go:141-172 | the same for mappings; the value is that of the derivation, no key twice |
| YamlParser.YamlParser.ParseSequence | internal/config/yaml_parser.go:174-246 | the same for sequences |
| YamlParser.YamlParser.ParseMore | internal/config/yaml_parser.go:221-239 | the further keys of an item's mapping, two columns in |
| YamlParser.YamlParser.ParseValue | internal/config/yaml_parser.go:251-269 | a value on the line of its key or a nested block |
| YamlParser.YamlParser.ParseNestedBlock | internal/config/yaml_parser.go:329-339 | a nested block starts right of its parent, else the value is null |
| YamlGrammar.BlockUsesUp | internal/config/yaml_parser.go:128-246 | a block uses its lines one by one in order, none of them left of its indent |
| YamlGrammar.NestedUsesUp | internal/config/yaml_parser.go:322-339 | a nested block uses no line at or left of its parent's indent |
| YamlRoot.RootUsesAll | internal/config/yaml_parser.go:109-246 | the root block takes up all lines if and only if none is left of the first, and those at its indent are all items or all keys as it is |
| YamlRoot.BlockAtIndent | internal/config/yaml_parser.go:141-246 | inside a block the lines at its own indent all start entries, or all start items |
| YamlRoot.MappingKeysDiffer | internal/config/yaml_parser.go:141-172 | two lines at the indent of a mapping never have the same key |
| YamlRoot.ItemKeysDiffer | internal/config/yaml_parser.go:205-240 | nor have the key on the line of a dash and a further one below it |
| YamlRoot.RootMappingUsesAll | internal/config/yaml_parser.go:109-172 | a root mapping at indent 0 leaves no line over |
| YamlRoot.TrailingLineIgnored | internal/config/yaml_parser.go:174-246 | `- a` then `b: c` is accepted and the second line ignored |
| YamlRoot.IndentedRootIgnored | internal/config/yaml_parser.go:141-172 | so is an indented `a: x` then `b: c` |
| YamlUnique.UniqueBlock | internal/config/yaml_parser.go:128-246 | the lines from a given one on make up at most one block |

## Left out

- Sockets, TLS, goroutines, timers, locks and send queues: handlers are atomic steps and links are sequences; a full queue drops nothing here.
- The SQL store: persistence stops at channel records, which come back unchanged.
- NickServ, ChanServ, MemoServ, SASL, the dashboard, the HTTP API, bots and the Lua runtime.
- Numeric replies, MOTD, WHO and WHOIS text, audit events and the NAMES and topic bursts to a joining client: output only.
- The link handshake (PASS, SERVER, SVINFO), link states and channel subscriptions: the code gives no clean guarantee about their order.
- Local delivery of federated messages other than the QUITs of a lost server: the federation handlers are modelled by what they do to the world, what they send back and whom they disconnect.
- Link.Link.HandleRemoteNick: the rename shown to local members of shared channels is output only.
- Link.Link.HandleRemoteQuit: the QUIT shown to local members of shared channels is output only.
- Link.Link.HandleRemoteJoin: the JOIN shown to local members and the peer's subscription to the channel are not modelled.
- Link.Link.HandleRemotePart: the PART shown to local members is output only.
- Link.Link.HandleRemoteKick: the KICK shown to local members is output only.
- Link.Link.HandleRemoteTopic: the TOPIC shown to local members is output only.
- Link.Link.HandleRemoteMode: the MODE shown to local members is output only.
- Link.Link.HandleRemoteKill: the QUIT shown for a remote target is output only.
- Link.Link.Dispatch: the handshake commands and the delivery of PRIVMSG and NOTICE do nothing here; SQUIT is Server.HandleSquit.
- Teardown.BroadcastQuit: the QUIT forwarded to the links is part of Server.Close.
- Server.Server.Close: the whowas record of the departed user is not written here; the ring itself is modelled in Whowas.
- The letters e, I, q, a and r over federation: the receiver has no case for them.
- MirrorRuns.RunIsMirrored: one node acts and one peer follows; lines that cross on a link, subscriptions and safe channels, whose modes are not replicated, are outside it.
- BurstWire.BurstArrives: a service is announced without user and host name, and the writer does not check prefixes, so it is assumed that the server's name and the hostmasks of services are single words.
- BurstTheorem.BurstIsFaithful: the topic's author and time are not sent by the source, and replicas keep the default +nt. Of a channel that the receiver had without members, or as a `!` or `+` channel, it says only that it stays under its name.
- FloodControl.WindowBound: over reals, so rounding of float64 is not modelled.
- LogRing.PollerIsFaithful: sequence numbers are naturals, so wrap-around of a 64-bit counter is not modelled; the same holds for user IDs.
- LogRotation.JSONLSink.Handle: JSON encoding and write or rename errors are not modelled, and the directory holds no file of another program with a matching name.
- ClientHandlers.TopicOne: the text is what is left after the length limit.
- ClientHandlers.JoinOne: takes the final name; the resolution of `!` names is part of the command runs in Safety, with the fresh ID as a parameter.
- Registration is a single step that adds the finished user record; user modes, away state and accounts are not part of it.
- The split of a configuration file into lines, comments and the types of scalars: the parser starts at the retained lines and keeps scalars as text. Trimming removes ASCII space only.
- Sweeping of idle connections, flood-control disconnects and other callers of the modelled engines.
