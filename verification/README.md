# TrenchChat: what its protocols keep

A Dafny model of the parts of TrenchChat that have no coordinator to fall back on, with proofs of what they keep. The
model follows the code's branches, edge cases and constants; where the code and its comments disagree it follows the
code, and the difference is named below.

- **Member lists** (`Permissions`, `MemberList`, `MemberListOrder`, `MemberListConvergence`, `MemberListPublish`,
  `MemberListAuthority`, `MemberListRights`, `MemberListBroadcast`, `MemberListSigning`, `MemberListReplica`). One scope,
  a standalone channel or a server, as each node stores it: the signed document, the members table derived from it and
  the permissions. A document is accepted against the stored one in stages: a trusted signer, what that signer may
  change, and the order by version, time and lowest signer. `MemberList.Accept` is that rule as a function;
  `MemberListReplica.Replica` is the node that applies it in place; the other modules prove what runs of it keep.
- **File downloads** (`Chunks`, `FileStore`, `Download`, `Engine`, `EngineRuns`, `EngineScheduler`, `EngineProgress`,
  `EngineSafety`, `EngineVerification`, `EngineTrust`, `EngineBlame`, `EngineParking`, `EngineEffects`, `EngineExamples`,
  `ServeAndVerify`, `FileManager`). `Download` is what one answer does to one download, `Engine` the whole manager as a
  state machine with one step for each region that runs under the source's lock, `EngineRuns` its runs and what a
  restart begins with, and `FileManager` the same with records updated in place. What holders answer is arbitrary input.
- **Friends** (`Friends`, `FriendsConsent`, `FriendsHandshake`, `FriendsMeaning`, `FriendsManager`). Contact
  states, what each operation writes, the handshake, and two nodes with a bag of messages in flight.
- **Encodings and orders** (`Text`, `Codec`, `Version`, `VersionOrder`, `Framing`, `FramingPump`).
- **Time-driven state** (`Throttle`, `Debounce`, `Bandwidth`).

Cryptography is a parameter: SHA-256 is any function (with 32-byte results where that matters), a signature check is any
predicate, UTF-8 any injective encoding, packing any function (one that reads back where that matters). Clocks, random
ids, reachability, what the store's budget evicts and which keys can be recalled are inputs of the step they affect.

## Where the code differs from what one would expect

Each of these is a lemma.

- A document that repeats a member is stored, and then the members table refuses the repeated row: the document has moved
  on and the roles have not (`RolesFollowUnlessTorn`, `RepeatedMemberLeavesRolesBehind`).
- A document that drops its own signer re-derives no signer, so a tie is always lost to the next signer: two such documents
  can replace each other for ever (`SignerRederivesIffKept`, `DroppedSignersCycle`).
- A stored document without owners is never upgraded by publishing it, although the recovery of owners exists for that
  purpose; the unchecked rebroadcast of permissions does upgrade it, on its own node only (`OwnerlessPublishIsRefused`,
  `OwnerlessStaysOwnerless`, `RebroadcastSplitsOwnerless`).
- `departed` and `channels` are under the signature only when `owners` and `joined_at` are present
  (`UnnestedFieldsAreNotBound`).
- Storing a chunk never replaces one that is there, so sharing a file over the leftovers of an interrupted download can
  mark other bytes complete (`ShareStoresDataIffLeftoversAgree`, `ShareCanCompleteOtherBytes`).
- Sharing the file that is being downloaded, and then asking for it again, leaves its download done with its request out
  and the one slot taken until that peer answers (`ShareIsOrderly`, `RequestIsOrderly`,
  `SharingTheActiveFileStrandsTheSlot`).
- An unfinished file that lacks no chunk, as a stop between the last chunk and the completion leaves it, is restored as a
  download with nothing to ask for: the next chunk request has no index (`RestoredIsOrderly`,
  `RestoredFullFileAsksForNothing`).
- Chunk rows need no file row, and reading a file joins all of them: an answer that comes after its file was evicted leaves
  a chunk behind, which a later, shorter file of the same hash is handed out with (`HandedOutIffNothingPast`,
  `StrayIsLeft`, `StrayChunkIsHandedOut`).
- A row keeps the chunk count it was begun with, and a holder serves by it: a node that began a download under a manifest
  of another size and then shares the file itself holds exactly the file and is suspected for it, or serves nothing
  (`ServedListPassesIffCountFits`, `HonestHolderDelivers`, `SharingUnderAnotherCountMisserves`).
- Room for another file is made by evicting unfinished downloads, the active one included, while their bookkeeping still
  counts the chunks. When the count is then full the whole-file check fails, and every holder that served a chunk is
  suspect for it (`HonestRangeBlamedIffChunkLost`, `EvictionBlamesHonestHolder`).
- A rebroadcast of permissions is stored without the check on its version. Once a document has the greatest version that
  is accepted, it cuts its node off: no peer takes it, and the node takes nothing more (`RebroadcastCutsOffIffPastMax`,
  `PastMaxIsDeaf`).
- A peer whose plain words are held and that then sends a handshake request still counts as one that sent only words:
  accepting it sends no answer, and its own side waits on (`RequestAfterWordsIsNotAnswered`).
- A download that is done stays done when it is asked for again after its file was evicted (`EvictedDoneStaysDone`,
  `EvictedFileIsNotFetchedAgain`).

## Model

| member | source | states |
|---|---|---|
| Permissions.MembersNeverHoldAdminOnly | trenchchat/core/permissions.py:154-239 | whatever is stored, a plain member never holds a permission reserved to admins, an owner holds every one, and every other grant is named for its role exactly as it was written, and held |
| Permissions.GrantGivesExactlyThat | trenchchat/core/permissions.py:211-239 | a permission granted to a role is held by it, and ShareFiles aside no role gains or loses anything else by it |
| Permissions.GrantsAndSharing | trenchchat/core/permissions.py:211-239 | who may share after a grant: naming ShareFiles once leaves it to those it is named for; SendMessage gives it where it is named nowhere; no other grant touches it |
| Permissions.WithdrawalTakesIt | trenchchat/core/permissions.py:211-239 | a permission withdrawn from a role below owner is gone, except ShareFiles withdrawn from the last role it was named for, which again goes with SendMessage |
| Permissions.NothingGrantedIsNothingHeld | trenchchat/core/permissions.py:231-239 | with nothing granted exactly an owner may do anything |
| Permissions.OldBlobsShareWhereTheySend | trenchchat/core/permissions.py:211-239 | where ShareFiles is named nowhere a role may share if and only if it may send |
| Permissions.UnreadableColumns | trenchchat/core/permissions.py:177-199 | without a row or with an empty column only owners may do anything; text that does not parse gives exactly what the private preset gives |
| MemberListOrder.RunNeverGoesBack | trenchchat/core/invite.py:862-885 | along every run of deliveries, whoever signed what, (version, published_at) never decreases lexicographically and a stored document never disappears |
| MemberListOrder.RedeliveryIsRefused | trenchchat/core/invite.py:862-885 | the stored document delivered again is refused and changes nothing |
| MemberListOrder.SignerRederivesIffKept | trenchchat/core/invite.py:767-801 | a stored document's signer re-derives if and only if the document keeps that signer among its admins and owners; otherwise the sentinel stands in |
| MemberListOrder.AcceptedSigner | trenchchat/core/invite.py:591-604 | a document with one signature was accepted on exactly that signature, and it holds |
| MemberListOrder.ReplacementIsLater | trenchchat/core/invite.py:862-885 | a document that replaces a stored one beats it by version, else time, else lower signer |
| MemberListOrder.StoredIsLater | trenchchat/core/invite.py:831-923 | everything a run stores after a document that keeps its signer is strictly later than it |
| MemberListOrder.NothingIsStoredTwice | trenchchat/core/invite.py:831-923 | if every document stored keeps its one signer, the triple strictly advances between any two of them and no document is stored twice |
| MemberListOrder.SwapIsTaken | trenchchat/core/invite.py:797-801 | two documents of equal version and time, each by a signer it drops, each replace the other |
| MemberListOrder.DroppedSignersCycle | trenchchat/core/invite.py:797-801 | delivered alternately n times, every one of the n deliveries of those two documents is stored |
| MemberListOrder.RolesFollowUnlessTorn | trenchchat/core/invite.py:887-923 | after a replacement the members table is the one the new document describes if and only if that document repeats no member or the table matched already |
| MemberListOrder.RepeatedMemberLeavesRolesBehind | trenchchat/core/invite.py:887-923 | a concrete pair of documents by a channel's creator, the second naming a member twice: both are taken, and the node is left with the second document and the roles of the first |
| MemberListConvergence.OwnerMaySign | trenchchat/core/invite.py:509-604 | a document with one valid signature by an owner validates as signed by that owner, and so does the stored one |
| MemberListConvergence.OwnerMayApply | trenchchat/core/invite.py:623-731 | an owner may apply any document that keeps the owner set and keeps the owners members |
| MemberListConvergence.OwnerDelivery | trenchchat/core/invite.py:831-923 | on a settled replica an owner's document is stored if and only if it is plausible and later, and the replica stays settled |
| MemberListConvergence.RunFindsNewest | trenchchat/core/invite.py:831-923 | a run over owners' documents ends on the newest of those it started from or heard, in any order and with any repetition |
| MemberListConvergence.ReplicasConverge | trenchchat/core/invite.py:831-923 | two replicas that start alike and hear the same documents end with the same document, the same member roles and the same carried permissions |
| MemberListConvergence.NodeRunsAlone | trenchchat/core/invite.py:748-765 | in any interleaving over many nodes each node's state is its own run over what was addressed to it |
| MemberListConvergence.NetworkConverges | trenchchat/core/invite.py:831-923 | in any interleaving of deliveries over any number of nodes, two nodes delivered the same set of owners' documents agree |
| MemberListPublish.EditedSets | trenchchat/core/invite.py:1331-1354 | the edits applied one by one leave exactly the expected members, admins and owners, with no entry repeated |
| MemberListAuthority.OthersMayNotTouchOwners | trenchchat/core/invite.py:666-714 | a signer who is no owner may only apply documents that keep the owner set and keep every owner a member |
| MemberListAuthority.AcceptedByOthersKeepsOwners | trenchchat/core/invite.py:831-923 | accepting a document validated by a signer outside the owners leaves the owners as they were, in the document and in the members table |
| MemberListAuthority.RebroadcastKeepsOwners | trenchchat/core/invite.py:1476-1526 | rebroadcasting permissions leaves a non-empty owner set and the owners' roles as they were |
| MemberListAuthority.OwnersCannotBeDeposed | trenchchat/core/invite.py:623-731 | along any run of inbound documents, publishes, permission changes and rebroadcasts in which no owner's signature got a document accepted, the owners stay exactly the owners and members with the owner role |
| MemberListAuthority.OwnersCannotBeIntroduced | trenchchat/core/invite.py:697-704 | with no owners stored, a document naming some is refused by every replica |
| MemberListAuthority.OwnerlessPublishIsRefused | trenchchat/core/invite.py:1320-1323 | publishing on a document without owners changes nothing whenever the recovered owners survive the edits |
| MemberListAuthority.OwnerlessStaysOwnerless | trenchchat/core/invite.py:697-704 | no run of deliveries, publishes and permission changes gives such a scope an owner |
| MemberListAuthority.RebroadcastSplitsOwnerless | trenchchat/core/invite.py:1476-1526 | rebroadcasting does give the local document owners, and every peer on the old document refuses it |
| MemberListAuthority.ActionsNeverGoBack | trenchchat/core/invite.py:831-923 | along every run of deliveries, publishes, rebroadcasts and permission changes (version, published_at) never decreases lexicographically |
| MemberListAuthority.RebroadcastCutsOffIffPastMax | trenchchat/core/invite.py:1476-1526 | a rebroadcast by someone who may leaves a version past the greatest accepted if and only if the stored one was already at it or past it; then every replica refuses it, and otherwise only a clock too far behind does so for its numbers |
| MemberListAuthority.PastMaxIsDeaf | trenchchat/core/invite.py:803-885 | from such a version on no run of deliveries, publishes and permission changes alters the document, and none of these nor a rebroadcast alters the members table |
| MemberListAuthority.PublisherValidates | trenchchat/core/invite.py:289-325 | a document one builds oneself validates as signed by oneself when one is in authority |
| MemberListAuthority.GatedEditsMayApply | trenchchat/core/invite.py:1227-1255 | edits left by the outbound gate may be applied if and only if somebody stays in authority and changed permissions are within the publisher's rights |
| MemberListAuthority.GateCoversRoleChanges | trenchchat/core/invite.py:1278-1318 | after the gate the admin set changes only at the hands of someone who may manage roles, and the owner set only at an owner's |
| MemberListAuthority.RosterFilterIsExact | trenchchat/core/invite.py:1411-1442 | the outbound filter of a server's roster drops nothing the inbound rule would let through: a roster of some of the channels on file passes that rule if and only if the filter leaves all of those in |
| MemberListAuthority.GateIsComplete | trenchchat/core/invite.py:1278-1442 | a publish on a channel or server in step is accepted if and only if somebody stays in authority, changed permissions are within the publisher's rights and the version counter is not exhausted; it is never refused for its roster |
| MemberListAuthority.OwnerPublishesAsAsked | trenchchat/core/invite.py:1278-1407 | an owner's accepted publish changes all three sets exactly as asked |
| MemberListAuthority.FirstPublishStartsAll | trenchchat/core/invite.py:1315-1407 | the first publish of a channel or server by its creator is accepted, makes the creator the one owner and meets what the results on authority, gating and convergence start from |
| MemberListRights.ReplacedExactlyByRight | trenchchat/core/invite.py:623-731 | a document takes the place of the stored one if and only if it is in order and its signer, at that moment, has KICK for every member that goes, MANAGE_ROLES for an admin that goes or any change of the admin set, is an owner for an owner that goes or any change of the owner set, MANAGE_CHANNEL for changed permissions and CREATE_CHANNEL for an added channel, and leaves somebody in authority |
| MemberListRights.SignerIsLowestTrusted | trenchchat/core/invite.py:509-621 | the signer is the lowest of those in authority in what is stored, or with nothing stored the creator and the accepted inviter, whose key is at hand and whose signature holds |
| MemberListRights.FirstTakenExactlyFromAnchor | trenchchat/core/invite.py:509-604 | the first document of a scope is taken if and only if it is for the scope, readable, plausible by version and clock, and validly signed by the creator or the accepted inviter |
| MemberListRights.StandingDecides | trenchchat/core/storage.py:1847-1854 | outside the members table nobody may do anything, an owner in it everything, and the rest what their role is named for, a plain member never to kick or manage roles |
| MemberListRights.PublishedAsFarAsAllowed | trenchchat/core/invite.py:1278-1354 | an accepted publish, by whomever, adds every member asked for and removes, promotes and demotes exactly as far as the publisher has the right |
| MemberListRights.ChangesNeedTheirRight | trenchchat/core/invite.py:623-731 | along any run of deliveries, publishes, rebroadcasts and permission changes nobody leaves the members, the admin set stays, the permissions sent are the old ones or none, and no channel is added, unless somebody holding KICK, MANAGE_ROLES, MANAGE_CHANNEL or CREATE_CHANNEL at that moment got a document stored |
| MemberListRights.MembersStayUnlessKicked | trenchchat/core/invite.py:831-923 | along such runs a member keeps its place and its row in the members table unless somebody who then held KICK got a document stored |
| MemberListBroadcast.PermissionsInForceAreSent | trenchchat/core/invite.py:289-325 | a rebroadcast and a published document carry permissions that read back as those in force, or none if there are none |
| MemberListBroadcast.AcceptedPermissionsAgree | trenchchat/core/invite.py:952-984 | whoever accepts a document that carries a node's permissions, and has a row, ends with the same permissions in force; told of none it keeps its own |
| MemberListBroadcast.AcceptedPermissionsAreThose | trenchchat/core/invite.py:952-984 | an accepted document puts in force what it carries, less what a plain member may never hold, if it names owners, can be read and there is a row; otherwise nothing changes |
| MemberListBroadcast.BroadcastIsPutInForce | trenchchat/core/invite.py:1444-1526 | an owner's rebroadcast is accepted by every peer that held the same document and hears it in time, and puts the owner's permissions in force there |
| MemberListBroadcast.PublishedTimes | trenchchat/core/invite.py:1356-1407 | a published document keeps every join time on file, gives new members the present one, carries recent departures, a roster exactly for a server, and one signature |
| MemberListBroadcast.OwnersStartedFrom | trenchchat/core/invite.py:78-93 | a publish starts from the stored owners; with none, from a channel's creator, else from the admins |
| MemberListSigning.SignedItemsUnambiguous | trenchchat/core/invite.py:111-155 | two documents have the same signed list if and only if they agree on everything a signature reaches, lists up to order, optional fields including their presence |
| MemberListSigning.UnnestedFieldsAreNotBound | trenchchat/core/invite.py:143-155 | changing departed or channels leaves the signed list the same if and only if owners or joined_at is absent |
| MemberListSigning.SignedInOrder | trenchchat/core/invite.py:111-155 | which fields are signed, in which order, in each form a document can have |
| MemberListReplica.Replica.ValidateDocument | trenchchat/core/invite.py:509-621 | the loop over signatures in ascending order finds the lowest trusted, known and valid signer, or none if there is none |
| MemberListReplica.Replica.BuildRows | trenchchat/core/invite.py:887-910 | the members table rows of a document, or none if an entry is no hash, and whether an entry is repeated |
| MemberListReplica.Replica.AcceptDocument | trenchchat/core/invite.py:831-923 | the new document, roles and permissions, and the verdict, are those of the acceptance rule on the old state; a stored document is replaced if and only if the new one is in order and its signer entitled to every change |
| MemberListReplica.Replica.FindRemovable | trenchchat/core/invite.py:1227-1255 | the targets left, in order, are those the actor has the authority to remove |
| MemberListReplica.Replica.ApplyEdits | trenchchat/core/invite.py:1331-1354 | the loops over the three lists leave the edited lists |
| MemberListReplica.Replica.PublishMemberList | trenchchat/core/invite.py:1257-1409 | publishing leaves the state and verdict of accepting the gated, edited and signed document, which carries the permissions that were in force |
| MemberListReplica.Replica.BroadcastPermissions | trenchchat/core/invite.py:1444-1526 | only the document changes, and not even that without the right to manage the channel: members and admins stay as held under the next version, signed by this node alone, the owner set stays if there is one and is filled if anybody is in authority, owners with their roles stay owners, and the permissions in force are carried |
| Chunks.ChunkBounds | trenchchat/core/files.py:106-116 | every chunk of a file is between one byte and a full chunk long, and the chunks tile the file |
| Chunks.ChunkSizesAddUp | trenchchat/core/files.py:106-116 | the sizes of all chunks add up to the file size |
| Chunks.ChunksJoinToFile | trenchchat/core/protocol.py:497-507 | the chunks of a file joined give back its bytes |
| Chunks.SplitJoinedHashes | trenchchat/core/files.py:837-840 | 32-byte digests joined into one payload are cut back into exactly those digests |
| Chunks.SplitLosesNothing | trenchchat/core/files.py:837-840 | cutting any payload into digests loses no byte and gives as many pieces as its length calls for |
| FileStore.RangeOfAll | trenchchat/core/storage.py:2866-2875 | reading a range returns as many chunks as asked for if and only if all of them are stored, and then each in its place |
| FileStore.ContentIsFile | trenchchat/core/storage.py:2877-2888 | rows holding exactly a file's chunks read back as the file |
| Download.Candidates | trenchchat/core/files.py:637-662 | the candidates are the last holder, the senders and the members, without this node |
| Download.AnswerKeeps | trenchchat/core/files.py:801-821 | no answer changes which file a download is for or who sent it, a chunk list that is kept has one digest per chunk, and a download that gives up fetching gives up the slot |
| Engine.NextHolderIsBest | trenchchat/core/files.py:664-693 | the holder chosen is an eligible candidate of the best tier any eligible candidate has, and none is chosen only when the attempts are spent or nobody is eligible |
| Engine.ActivationKeepsOpen | trenchchat/core/files.py:751-764 | activating the next download closes none and chooses one that is queued and admitted |
| Engine.StallCloses | trenchchat/core/files.py:766-779 | parking a download removes exactly it from those queued or fetching and frees the slot, so the loop that parks and tries again ends |
| EngineRuns.PrepareTakesNothingIn | trenchchat/core/files.py:703-779 | looking for the next request, with all the admitting, evicting and parking before it, stores nothing, deletes only whole files, and changes what a download holds only by admitting it |
| EngineRuns.RequestEffect | trenchchat/core/files.py:289-340 | a request changes no download but the one it names, never which file that is for, stores nothing, and deletes only whole files |
| EngineProgress.RankIsLexicographic | trenchchat/core/files.py:718-749 | the potential of a download falls whenever (holders not suspect, list missing, chunks left to fetch, attempts left) falls lexicographically |
| EngineProgress.WeightIsBounded | trenchchat/core/files.py:718-749 | one download never costs more than ten requests for each peer plus one and each chunk plus one |
| EngineProgress.AnswerSpends | trenchchat/core/files.py:801-943 | whatever the answer, including a restart after a whole-file mismatch, a download's potential does not rise |
| EngineProgress.ResultSpends | trenchchat/core/files.py:801-821 | handling the answer that is awaited does not raise the cost of the whole state, and leaves no request outstanding |
| EngineProgress.PrepareSpends | trenchchat/core/files.py:718-749 | issuing a request lowers the cost, and when none is issued with none outstanding everything has settled; the state otherwise stays as it was |
| EngineProgress.DownloadsSettle | trenchchat/core/files.py:703-821 | with a fixed set of peers and no outside event, whatever holders answer, no more requests are issued than the state costs, each of them for a list or for chunks, and the run ends with every download done, parked, failed or waiting for room |
| EngineProgress.StepIsPooled | trenchchat/core/files.py:248-943 | every event among the peers of a pool keeps the download order and table in step, every known peer in the pool, and every outstanding request one whose answer is expected, from a holder that is no suspect |
| EngineProgress.ReachableSettles | trenchchat/core/files.py:248-943 | from nothing or from a restart, after any run of harmless events among the peers of a pool, the engine left alone issues no more requests than its cost then allows, none without something to ask for, and everything settles |
| EngineProgress.OriginsAreClosed | trenchchat/core/files.py:198-226 | a node that tracks nothing may start such a run, and a restart may if and only if every unfinished file it takes up lacks a chunk |
| EngineSafety.ShareStoresDataIffLeftoversAgree | trenchchat/core/files.py:248-285 | a share that goes through completes the file, with the shared bytes stored if and only if no leftover chunk disagrees with them |
| EngineSafety.ShareIsWholeIffLeftoversBelowAgree | trenchchat/core/files.py:248-285 | the first chunks of a file that a share completes are those shared if and only if no leftover among them disagrees |
| EngineExamples.ShareCanCompleteOtherBytes | trenchchat/core/files.py:248-285 | from a fresh node: a manifest claims two chunks for the hash of a short file, a holder serves a first chunk that its list covers, and sharing the file itself then marks the hash complete with those other bytes |
| EngineSafety.CompletionIsCorrect | trenchchat/core/files.py:908-943 | a whole-file check marks complete only a file whose first chunks, as many as its manifest gives, are all there and hash to the address |
| EngineSafety.StepKeepsConsistent | trenchchat/core/files.py:248-943 | every share, request, answer, pump, eviction, appearance and retry keeps that of every complete file, whatever sizes the manifests of one hash claim |
| EngineSafety.CompleteMeansCorrect | trenchchat/core/files.py:834-943 | in every reachable state the first chunks of every complete file are there and hash to its address, whatever bytes holders serve, whatever sizes manifests claim and whatever is evicted, while shares meet no disagreeing leftovers; and they are what is handed out if and only if no chunk row lies past them |
| EngineSafety.StartIsConsistent | trenchchat/core/files.py:198-226 | a node that tracks nothing, and a restart on correct tables, may start such a run |
| EngineSafety.HandedOutIffNothingPast | trenchchat/core/storage.py:2877-2888 | joining all chunk rows of a file gives its first n chunks if and only if no row lies past them |
| EngineSafety.OneSizeIsHandedOut | trenchchat/core/files.py:834-943 | where every manifest and share gives a hash one chunk count, what is handed out as a complete file hashes to its address, and every row has that count |
| EngineExamples.StrayIsLeft | trenchchat/core/files.py:580-594 | from a fresh node: a download is evicted while its second chunk is awaited, the answer is stored without a row, and pruning forgets the download and not the chunk |
| EngineExamples.StrayChunkIsHandedOut | trenchchat/core/storage.py:2877-2888 | the true manifest of a short file then names the same hash, its one chunk is fetched and marked complete, and the file is handed out with the stray chunk after it |
| EngineScheduler.AnswerIsRegular | trenchchat/core/files.py:801-943 | whatever the answer, the download it was for has nothing outstanding and still lacks a chunk if it goes on, and no other file's rows are touched |
| EngineScheduler.PrepareIsOrderly | trenchchat/core/files.py:703-779 | the next request is at most one, by the active download, and only for what it is missing |
| EngineScheduler.ShareIsOrderly | trenchchat/core/files.py:248-285 | sharing leaves the manager in order if and only if it does not go through, or the file is not tracked, or its download was admitted or is done, or still lacks a chunk past those shared |
| EngineScheduler.RequestIsOrderly | trenchchat/core/files.py:289-340 | a request leaves the manager in order if and only if it does not find the active file complete and starts no download that has every chunk already |
| EngineScheduler.StepIsOrderly | trenchchat/core/files.py:248-943 | exactly the harmless events leave the manager in order, and every answer, pump, prune, appearance and retry is harmless |
| EngineScheduler.RunIsOrderly | trenchchat/core/files.py:248-943 | a run stays in order throughout if and only if each of its events is harmless when it comes |
| EngineScheduler.SchedulerInvariant | trenchchat/core/files.py:718-821 | along every run of harmless events, from nothing or after a restart, at most one download has a request outstanding and it is the active, admitted, fetching one, and windows stay between one and the maximum |
| EngineScheduler.RequestsAskForMissing | trenchchat/core/files.py:718-749 | every request issued after such a run asks for the list when it is missing, else for a non-empty range in bounds, within the window and missing throughout |
| EngineScheduler.RestoredIsOrderly | trenchchat/core/files.py:596-623 | a restart begins in order if and only if every unfinished file it takes up lacks a chunk |
| EngineExamples.SharingTheActiveFileStrandsTheSlot | trenchchat/core/files.py:289-340 | from a fresh node, for any file: asked for, its list requested, the same bytes shared here, asked for again; its download is then done with its request out and the slot its own, and nothing is requested until that peer answers |
| EngineExamples.RestoredFullFileAsksForNothing | trenchchat/core/files.py:596-623 | a file whose every chunk was stored before the node stopped, but which was not marked complete, is restored, its list is fetched, and the next request has no chunk to ask for |
| EngineScheduler.EvictedDoneStaysDone | trenchchat/core/files.py:318-335 | a done download asked for again after eviction is queued anew if and only if it was never admitted and there is no room now |
| EngineExamples.EvictedFileIsNotFetchedAgain | trenchchat/core/files.py:318-335 | from a fresh node: a file is fetched, evicted to make room for another and asked for again; it is not held, and its download is still done |
| EngineVerification.AnswerIsSigned | trenchchat/core/files.py:801-943 | whatever bytes an answer carries, a download in progress holds only chunks that match a list under the signed root |
| EngineVerification.ShareIsGood | trenchchat/core/files.py:248-285 | sharing keeps downloads verified if and only if it does not go through, or the file is not tracked, or its download is done |
| EngineVerification.RequestIsGood | trenchchat/core/files.py:289-340 | a request keeps downloads verified if and only if it starts none on chunks that it did not fetch: the file is complete; or untracked, or done unadmitted without room, and nothing of it is stored; or admitted, and not failed with nothing missing; or waiting for room |
| EngineVerification.StepIsGood | trenchchat/core/files.py:248-943 | exactly those events keep every download verified |
| EngineVerification.HeldChunksAreSigned | trenchchat/core/files.py:852-878 | along every run of such events, whatever bytes holders served, every chunk held for a download in progress and still stored has the digest that a list under the signed root gives it |
| EngineTrust.AnswerIsTrusted | trenchchat/core/files.py:801-943 | of a file with a true manifest and only own chunks stored, whatever an answer carries, what is stored stays the file's own and the only list kept is the true one, and a holder that answers honestly is not made suspect while every chunk held is stored |
| EngineTrust.HonestRangeBlamedIffChunkLost | trenchchat/core/files.py:852-943 | with room for what it brings, an honest range of chunks makes its holder suspect if and only if it makes the count full while a chunk it did not bring is no longer stored |
| EngineTrust.StepIsTrusted | trenchchat/core/files.py:248-943 | every share, request, answer, pump, prune, appearance and retry keeps all that, if no eviction and no share short of room takes chunks of the wanted file away |
| EngineTrust.HonestHolderIsNeverSuspect | trenchchat/core/files.py:801-943 | along every run of harmless events of that kind, whatever bytes all other peers serve and in whatever order holders are asked, a peer that serves the file honestly is never suspect, and what is stored of the file is the file's own |
| EngineTrust.CompleteIsHeldProperly | trenchchat/core/files.py:407-468 | where also every manifest and share gives a hash one chunk count, a node that calls the file complete after such a run is itself a holder whose answers are honest |
| EngineTrust.OriginsAreTrusted | trenchchat/core/files.py:198-226 | a fresh node, and a restart with own chunks and the true manifest, may start such a run |
| EngineBlame.ReplyTakenAsFarAsUsable | trenchchat/core/files.py:852-893 | a reply is taken in exactly as far as its longest run of pieces that are whole, match their digests and can be stored, counted by chunk from the first one missing, and stops for the reason the next piece gives |
| EngineBlame.ChunksAreJudged | trenchchat/core/files.py:852-943 | an answer for chunks makes its holder suspect if and only if the next whole piece after that run does not match, or the count is full and the file is not the one asked for, and then so does every contributor; who is passed over, who counts as refusing, what is held and whether the file is done follow likewise |
| EngineBlame.ListIsJudged | trenchchat/core/files.py:834-850 | an answer with a list makes its holder suspect if and only if it has not one digest for each chunk or does not hash to the signed root |
| EngineBlame.FailureIsJudged | trenchchat/core/files.py:823-832 | a failed request makes nobody suspect; its holder is passed over for the round, and counts as refusing exactly if it refused |
| EngineBlame.MismatchEndsIffNobodyIsLeft | trenchchat/core/files.py:908-943 | a whole file that does not match fails the download if and only if everyone who may hold it is then suspect; otherwise it starts again from nothing |
| EngineBlame.TwoSuccessesDouble | trenchchat/core/files.py:151-161 | two successes in a row double the window up to sixteen, one does not, a failure halves it |
| EngineBlame.ResultIsJudged | trenchchat/core/files.py:801-821 | in the whole manager the awaited answer changes that one download so, its holder is remembered exactly if it served something and nothing bad, and the slot stays exactly with a download still fetching |
| EngineBlame.PrepareAsksNoSuspect | trenchchat/core/files.py:703-749 | the next request goes to nobody who is suspect for its file |
| EngineBlame.SuspectIsNeverAsked | trenchchat/core/files.py:664-749 | along every run, once a peer is suspect for a file it stays so and no request for the file goes to it, as long as the download lasts |
| EngineBlame.OriginsHaveOwnKeys | trenchchat/core/files.py:596-623 | a fresh node and a restart may start such a run |
| EngineParking.StallParksRightly | trenchchat/core/files.py:766-779 | a parked download has failed as refused if and only if some peer may hold the file, some holder refused it, and every peer that may hold it refused or is suspect; otherwise it waits for a holder |
| EngineParking.PrepareParksRightly | trenchchat/core/files.py:703-779 | whatever preparing a request parks had nobody left to ask and is parked so; every other download keeps its round, and one that was not open is left alone |
| EngineParking.RefusedByAllIsGivenUp | trenchchat/core/files.py:695-779 | once every peer that may hold the file refused it, the next look for a request fails the active download, and no retry, appearance or anything but a request for the file brings it back |
| EngineParking.FailedStaysFailed | trenchchat/core/files.py:538-552 | along every run a failed download stays failed until its file is asked for again or it is forgotten |
| EngineParking.RetryRevivesExactlyTheDue | trenchchat/core/files.py:538-552 | a retry gives exactly the waiting downloads that are due a new round and touches nothing else |
| EngineParking.AppearanceRevivesExactly | trenchchat/core/files.py:361-391 | a peer that appears may be asked again, in a round with all its attempts, for exactly the waiting downloads it may hold; for nobody else does it change who may be asked |
| EngineParking.RequestForHeldIsDone | trenchchat/core/files.py:308-317 | asking for a file that is held evicts and asks nothing, and its download is done with every chunk held |
| EngineParking.RequestRevives | trenchchat/core/files.py:318-340 | asking for a file that is not held gives a parked or failed download a new round, lets one under way be, admits it exactly if there is room, with what is stored of it, and otherwise lets it wait |
| EngineParking.RequestNotesSender | trenchchat/core/files.py:289-306 | whoever sent the message is somebody to ask, except this node; nobody else is, and nobody is listed twice |
| EngineEffects.ShareLeaves | trenchchat/core/files.py:248-285 | an empty file and one without room change nothing, a file held becomes own, one that goes through is own and complete, and one that could not be stored leaves nothing of it; other files are untouched |
| EngineEffects.SharingStored | trenchchat/core/files.py:248-285 | a share that goes through stores exactly the missing chunks of the file and replaces none |
| EngineEffects.CandidatesComeInOrder | trenchchat/core/files.py:637-662 | the candidates come each once: who served last, then the senders as they sent, then the members as they are listed |
| EngineEffects.TierPrefersReachable | trenchchat/core/files.py:664-693 | who can be dialled goes before who cannot, and of two alike in that who was heard from goes first |
| EngineEffects.NextHolderIsFirstOfBest | trenchchat/core/files.py:664-693 | of the eligible candidates of the best tier the one that comes first is asked |
| EngineEffects.FirstThatCanStartIsActivated | trenchchat/core/files.py:751-764 | the slot goes to the first download in line that is queued and admitted or has room, and stays free if and only if there is none |
| EngineEffects.RequestTakesAllItMay | trenchchat/core/files.py:740-749 | a request for chunks starts at the first one missing and ends only where the window is full, the file ends or the next chunk is held |
| EngineTrust.QuestionStands | trenchchat/core/files.py:718-821 | until its answer comes a request stands as it was issued, or its download is forgotten, so the chunk an answer is checked from is the one that was asked for |
| EngineExamples.EvictionBlamesHonestHolder | trenchchat/core/files.py:908-943 | from a fresh node: of a file of two chunks the first is fetched and then evicted to make room for another file while the second is out; the only holder answered all as any node that has the file does, and it is suspect and the download failed as corrupt |
| ServeAndVerify.ServedListPassesIffCountFits | trenchchat/core/files.py:407-458 | the list that a holder of the file serves passes the check against the signed root if and only if the holder's row has the file's chunk count, and is then the file's own digests; by a row with fewer it is served and makes the holder suspect, by one with more it is refused |
| ServeAndVerify.ReplyIsCutBack | trenchchat/core/files.py:852-878 | bytes joined from consecutive chunks are cut back into exactly those chunks, all consumed, all stored |
| ServeAndVerify.ServedRangeIsTaken | trenchchat/core/files.py:407-468 | a range is refused if and only if it starts at or past the chunk count in the holder's row; any other is taken whole, as exactly the chunks asked for as far as that count and the file go |
| ServeAndVerify.RangeExchange | trenchchat/core/files.py:407-468 | one exchange with a holder whose row reaches the first chunk missing either completes the file, and then the row reached every chunk missing, or leaves fewer missing and none beyond the row's count; it makes nobody suspect |
| ServeAndVerify.HonestHolderDelivers | trenchchat/core/files.py:393-468 | from any point of a download the answers of a holder that has the file finish it within one for the list and one for each missing chunk, with exactly the shared bytes and nobody newly suspect, if and only if the holder's row calls the file complete, has its chunk count if the list is still missing, and reaches every chunk missing |
| EngineExamples.SharingUnderAnotherCountMisserves | trenchchat/core/storage.py:2810-2829 | from a fresh node: a download is begun under a manifest that claims another chunk count for the hash and then the file is shared here; the node holds exactly the file, complete, and yet serves the true downloader a list that makes it suspect, or none at all |
| FileManager.Record.GrowWindow | trenchchat/core/files.py:151-156 | a window in range stays in range and does not shrink, and grows only on the second success in a row |
| FileManager.Record.ShrinkWindow | trenchchat/core/files.py:158-161 | a window in range stays in range, and one above the least shrinks |
| FileManager.Record.FindNextIndex | trenchchat/core/files.py:173-177 | the loop finds the first chunk not held |
| FileManager.Record.NextRequest | trenchchat/core/files.py:740-749 | the loop extends the range over missing chunks as far as the window and the file allow |
| FileManager.Record.FailRequest | trenchchat/core/files.py:823-832 | only the holder is passed over for the rest of the round, only a refusal is remembered, and a window in range stays in range and does not grow |
| FileManager.Record.ResetRound | trenchchat/core/files.py:895-906 | everyone but the suspects may be asked again, attempts are left, and only this holder is no longer counted as refusing |
| FileManager.Manager.constructor | trenchchat/core/files.py:596-623 | the loop takes up exactly the listed files that a stored message names, in order, and the manager starts in order if and only if each of them lacks a chunk |
| FileManager.Manager.ListCandidates | trenchchat/core/files.py:637-662 | the loops list the last holder, the senders and the members, each once and without this node |
| FileManager.Manager.FindHolder | trenchchat/core/files.py:664-693 | one pass that stops early at the best tier finds the holder that a search tier by tier would |
| FileManager.Manager.Admit | trenchchat/core/files.py:580-594 | with room the download is admitted with what is already stored, without it waits queued as it was; exactly the other files evicted are deleted, whole, and nothing stored of this one; a manager that was ready for its next request stays so |
| FileManager.Manager.ActivateNext | trenchchat/core/files.py:751-764 | the loop over the order activates the first queued download that has room |
| FileManager.Manager.HaveAllRefused | trenchchat/core/files.py:695-701 | true if and only if there are candidates, someone refused, and every candidate refused or is suspect |
| FileManager.Manager.Stall | trenchchat/core/files.py:766-779 | the download is parked, failed or waiting as `EngineParking.StallParksRightly` says, and the slot freed; nothing else changes |
| FileManager.Manager.Prepare | trenchchat/core/files.py:718-749 | the loop ends, with the state and the one request of the specification; a manager in order stays so, and the request asks for something missing |
| FileManager.Manager.StoreChunks | trenchchat/core/files.py:852-878 | the loop stores the chunks that match, up to the first short, bad or refused one, and says how many and why it stopped |
| FileManager.Manager.OnChunkList | trenchchat/core/files.py:834-850 | a matching list is kept, joins to the payload and makes nobody suspect; any other leaves the list as it was and makes the holder suspect; chunks held and phase stay, and a list kept has one digest per chunk |
| FileManager.Manager.OnChunks | trenchchat/core/files.py:852-893 | the record, the store, the slot and the memory of who served are those of the specification |
| FileManager.Manager.Complete | trenchchat/core/files.py:908-943 | a match completes the file; a mismatch drops it, and restarts or fails it by whether anyone is left to ask |
| FileManager.Manager.OnResult | trenchchat/core/files.py:801-821 | the whole state after a transport result, with every other download untouched; a manager in order stays so |
| FileManager.Manager.RequestDownload | trenchchat/core/files.py:289-340 | the whole state after a request: tracked, sender noted, done if held, else queued again and admitted if there is room; a manager in order stays so if and only if the request is harmless |
| FileManager.Manager.Share | trenchchat/core/files.py:248-285 | the tables after a share, the file deleted again if a chunk could not be stored; a manager in order stays so if and only if the share is harmless |
| FileManager.Manager.PeerAppeared | trenchchat/core/files.py:361-391 | exactly the waiting downloads this peer may hold get a new round that includes it; a manager in order stays so |
| FileManager.Manager.RetryParked | trenchchat/core/files.py:538-552 | exactly the parked downloads that are due are queued again; a manager in order stays so |
| FileManager.Manager.Prune | trenchchat/core/files.py:526-536 | exactly the admitted downloads whose rows are gone are forgotten, in the table, the order and the slot; a manager in order stays so |
| FriendsConsent.StepIsSound | trenchchat/core/friends.py:107-571 | every operation and every message keeps the in-memory gate equal to the stored accepted contacts, at most 64 contacts pending inbound, and at most three held messages for each sender and 128 in all |
| FriendsConsent.RunIsSound | trenchchat/core/friends.py:107-571 | the same in every reachable state |
| FriendsConsent.WantingNeedsConsent | trenchchat/core/friends.py:107-571 | one step makes an identity accepted or asked only if it was already or the local user named it |
| FriendsConsent.AcceptanceNeedsConsent | trenchchat/core/friends.py:107-571 | from no contacts, whoever is accepted or asked was named by the local user at some step after which that contact was never deleted, whatever peers sent |
| FriendsConsent.OnlyRemovalEndsIt | trenchchat/core/friends.py:145-160 | an accepted contact stops being accepted if and only if the local user removes it |
| FriendsHandshake.FairStep | trenchchat/core/friends.py:244-284 | a local step that spares the peer leaves its standing, loses its unanswered request, asks it once, or accepts it and says so once |
| FriendsHandshake.HearingStep | trenchchat/core/friends.py:500-551 | a request is answered with an accept or queued, an accept counts only when it was asked for |
| FriendsHandshake.HandshakeIsMutual | trenchchat/core/friends.py:244-551 | two strangers, messages in any order, repeated and crossing: when nothing is in flight each holds the other as accepted or neither does, and they are not both waiting |
| FriendsHandshake.AcceptanceIsOnItsWay | trenchchat/core/friends.py:266-284 | at every moment a one-sided acceptance has an accept in flight towards a peer that is waiting for it |
| FriendsHandshake.DeliveryLightens | trenchchat/core/friends.py:500-551 | each message delivered leaves strictly less to deliver |
| FriendsHandshake.NetworkFallsSilent | trenchchat/core/friends.py:500-551 | with no further local step no more messages arrive than the load in flight |
| Friends.OldestPending | trenchchat/core/storage.py:2436-2443 | the pending inbound contact that was added first |
| Friends.EvictOldestPending | trenchchat/core/friends.py:559-571 | makes room for one more, deletes only pending inbound contacts and their words, and changes nothing else |
| FriendsConsent.AddingKeepsCaps | trenchchat/core/storage.py:2492-2523 | holding one more message keeps at most three for each sender and 128 in all |
| FriendsMeaning.AskedUnlessOnlyWords | trenchchat/core/friends.py:365-374 | a peer counts as having asked unless all that is held from it is words of a client that cannot shake hands |
| FriendsMeaning.AddingWrites | trenchchat/core/friends.py:107-127 | adding writes the given names, keeps an earlier date, leaves every other contact and everybody else's words alone, and answers exactly a pending peer that asked |
| FriendsMeaning.AcceptingWrites | trenchchat/core/friends.py:266-284 | accepting keeps date and note, and the nickname unless one is given, and answers exactly a peer that asked |
| FriendsMeaning.UpdatingWrites | trenchchat/core/friends.py:129-143 | an update writes exactly the fields given, and only of a contact there is |
| FriendsMeaning.AskingWrites | trenchchat/core/friends.py:244-264 | asking keeps the note whole here, sends its first 140 characters in one request, and does so for nobody accepted or pending |
| FriendsMeaning.LeavingTakes | trenchchat/core/friends.py:376-396 | removing, declining and cancelling take exactly that contact and, the first two, its words; only a declined peer that asked is told |
| FriendsMeaning.HearingWrites | trenchchat/core/friends.py:500-533 | a stranger's request is written down with its note cut and no nickname, and not answered |
| FriendsMeaning.RequestAfterWordsIsNotAnswered | trenchchat/core/friends.py:365-374 | a handshake request from somebody whose plain words are held changes nothing, so accepting them afterwards sends no answer |
| FriendsMeaning.EvictionIsMinimal | trenchchat/core/friends.py:559-571 | room is made by dropping exactly as many pending requests as needed, the oldest first, with their words and nobody else's |
| FriendsMeaning.HoldingKeepsTheLast | trenchchat/core/storage.py:2492-2523 | of the sender the last three messages are kept, of the others all, in order, and of more than 128 the last 128 |
| FriendsMeaning.HoldingLosesOnly | trenchchat/core/friends.py:286-334 | nothing older than thirty days is held any more, and below the total limit nobody else loses any younger words unless their own request was dropped |
| FriendsMeaning.ResolvingFinishes | trenchchat/core/friends.py:210-226 | every address whose identity is known is finished and its identity, unless it is this node's own, a friend; all others wait on |
| FriendsManager.Manager.constructor | trenchchat/core/friends.py:76-105 | the gate starts as the stored accepted contacts, and the node is sound if and only if what is stored is within its limits and does not hold the node itself |
| FriendsManager.Manager.AddFriend | trenchchat/core/friends.py:107-127 | a sound node stays sound; the contact is accepted and passes the gate, nobody else's standing moves, and an accept is sent only to a peer whose request was pending and shook hands |
| FriendsManager.Manager.UpdateFriend | trenchchat/core/friends.py:129-143 | a sound node stays sound; no contact comes or goes, changes standing or date, or changes at the gate |
| FriendsManager.Manager.RemoveFriend | trenchchat/core/friends.py:145-160 | a sound node stays sound; the contact no longer passes the gate, is no contact and has no words held, and nobody else's standing moves |
| FriendsManager.Manager.AddLxmfAddress | trenchchat/core/friends.py:162-192 | a sound node stays sound; a resolved address makes its identity a friend and moves nobody else, an unresolved one is noted beside the others and moves nobody |
| FriendsManager.Manager.Tick | trenchchat/core/friends.py:210-226 | the loop finishes every address that now resolves; a sound node stays sound |
| FriendsManager.Manager.SendFriendRequest | trenchchat/core/friends.py:244-264 | a sound node stays sound; the peer ends up wanted and nobody else moves; it is asked, in one message, exactly when it was a stranger or asked before |
| FriendsManager.Manager.AcceptFriendRequest | trenchchat/core/friends.py:266-284 | a sound node stays sound; exactly a pending request is accepted, passes the gate and keeps its date, and nobody else's standing moves |
| FriendsManager.Manager.HoldMessageRequest | trenchchat/core/friends.py:286-334 | a sound node stays sound; nobody becomes or stops being wanted or a friend, the new words are held within the cap, and no others appear |
| FriendsManager.Manager.DeclineFriendRequest | trenchchat/core/friends.py:376-388 | a sound node stays sound; the request and its words go, nobody wanted or at the gate changes, and only a peer that shook hands is told |
| FriendsManager.Manager.CancelFriendRequest | trenchchat/core/friends.py:390-396 | a sound node stays sound; only a contact we asked is withdrawn, and the gate and everyone else stay |
| FriendsManager.Manager.OnMessage | trenchchat/core/friends.py:481-498 | a sound node stays sound; nobody becomes wanted, the only new friend is the sender and only if it was asked, and the only answer is an accept to a sender that is then a friend |
| FriendsManager.Manager.HandleRequest | trenchchat/core/friends.py:500-533 | a sound node stays sound; who is wanted does not change, a peer that was asked becomes a friend, a friend or such a peer is answered, and a stranger is a pending contact |
| FriendsManager.Manager.HandleAccept | trenchchat/core/friends.py:535-551 | a sound node stays sound; who is wanted does not change, and the sender becomes a friend exactly if it was asked |
| FriendsManager.Manager.HandleDecline | trenchchat/core/friends.py:553-557 | a sound node stays sound; the gate and everyone else stay, and the sender is forgotten exactly if it was asked |
| FriendsManager.Manager.EvictOldestPending | trenchchat/core/friends.py:559-571 | the loop ends with room for one more, having dropped the oldest first |
| Codec.LengthPrefixedRoundTrip | trenchchat/core/protocol.py:487-494 | parts joined with their lengths are read back exactly |
| Codec.LengthPrefixedIsInjective | trenchchat/core/protocol.py:487-494 | no two lists of parts join to the same bytes |
| Codec.TimeTextIsInjective | trenchchat/core/protocol.py:658 | no two microseconds are written alike with six decimals |
| Codec.AuthorPartsBind | trenchchat/core/protocol.py:654-670 | two messages give the same parts if and only if they agree on every field the signature covers, including whether there is a manifest |
| Codec.AuthorInputBinds | trenchchat/core/protocol.py:630-671 | the same of the bytes that are hashed and signed |
| Codec.AuthorInputReads | trenchchat/core/protocol.py:630-671 | what is signed reads back as the domain and the covered fields in their order |
| Codec.MessageIdReadsBack | trenchchat/core/messaging.py:147-149 | the text behind a message id gives back content, sender and time if and only if the sender holds no colon, whatever the content holds |
| Codec.MessageIdsDiffer | trenchchat/core/messaging.py:147-149 | two messages share that text if and only if content, sender and time are the same |
| Version.SpelledIsParsed | trenchchat/version.py:56-58 | every text the grammar spells is parsed, to what its pieces mean |
| Version.ParseReadsTheGrammar | trenchchat/version.py:95-105 | a text parses to a version if and only if, trimmed, the grammar spells it with that meaning |
| Version.TrimmedIsBetweenSpaces | trenchchat/version.py:95-105 | what is matched is the text between its outer white space, and no other character goes |
| Version.RenderedIsParsed | trenchchat/version.py:95-105 | a version written out and read back is the same version |
| Version.ParsedIsWellFormed | trenchchat/version.py:95-105 | whatever is read can be written out again |
| Version.WalkPrerelease | trenchchat/version.py:108-126 | the walk over both lists, then their lengths, gives the comparison |
| VersionOrder.IdentifiersTurnRound | trenchchat/version.py:116-124 | identifiers compare as section 11.4 of Semantic Versioning 2.0.0 says, with the sign turned when the sides are |
| VersionOrder.ListsFollowTheStandard | trenchchat/version.py:108-126 | one prerelease list compares below another if and only if section 11.4 puts it first |
| VersionOrder.CompareIsPrecedence | trenchchat/version.py:129-140 | the comparison is negative if and only if the first version precedes the second by section 11, positive if and only if the second precedes the first |
| VersionOrder.ComparisonIsTotalPreorder | trenchchat/version.py:129-140 | on all texts that parse the comparison is total, reflexive, sign-antisymmetric and transitive; others compare with nothing |
| VersionOrder.BuildIsIgnored | trenchchat/version.py:129-140 | relabelling the build of either side changes no comparison |
| VersionOrder.ChangeNamesPrecedence | trenchchat/version.py:143-162 | a step between different texts is an upgrade if and only if both parse and the previous one precedes, a downgrade if the current one does, a sidegrade if neither does, unknown if one does not parse; with nothing recorded it is unknown or a first run by whether a profile exists |
| VersionOrder.UpgradeIsDowngradeBack | trenchchat/version.py:143-162 | a step is an upgrade if and only if the step back is a downgrade, and sidegrades and unknowns are their own opposites |
| VersionOrder.UpgradesAddUp | trenchchat/version.py:143-162 | an upgrade followed by an upgrade, a sidegrade or nothing is an upgrade |
| Framing.FrameEndIsSecondFlag | devtools/testenv/link_shaper.py:40-48 | a frame ends at the second flag, and there is none if and only if fewer than two flags are left |
| Framing.SplitSplits | devtools/testenv/link_shaper.py:31-49 | frames and tail join to the input, every frame has exactly two flags and ends in one, the tail has fewer than two |
| Framing.SplitIsUnique | devtools/testenv/link_shaper.py:31-49 | a cut has those three properties if and only if it is the one computed |
| Framing.SplitComposes | devtools/testenv/link_shaper.py:131-132 | splitting what is left over with what comes next gives the rest of the split of the whole |
| Framing.SplitFrames | devtools/testenv/link_shaper.py:31-49 | the loop that finds one flag after another computes that split |
| FramingPump.FedConserves | devtools/testenv/link_shaper.py:131-135 | one read loses no byte and leaves no more than the cap unframed |
| FramingPump.FeedingConserves | devtools/testenv/link_shaper.py:121-135 | over any reads the frames offered and the buffer join to all bytes read, even where the cap flushes |
| FramingPump.FramingIgnoresChunking | devtools/testenv/link_shaper.py:121-135 | a stream fed in pieces is framed as if split at once if and only if no tail on the way exceeds the cap |
| FramingPump.Pump.Feed | devtools/testenv/link_shaper.py:121-140 | a read offers its frames, queues those there is room for, counts the rest as dropped, and keeps the books |
| FramingPump.PumpLosesNoByte | devtools/testenv/link_shaper.py:121-140 | in every state the frames offered and the buffer account for every byte counted |
| Throttle.AllowedExactlyBelowBurst | trenchchat/core/reaction.py:369-383 | a request is let through if and only if fewer than twelve of that requester's were in the window before it, so forgetting stale requesters changes no answer |
| Throttle.BurstIsNeverExceeded | trenchchat/core/reaction.py:369-383 | for every requester and every instant at most twelve requests are let through in the window that ends there |
| Throttle.CrowdedTableForgets | trenchchat/core/reaction.py:378-382 | a granted request that leaves more than 512 requesters forgets exactly those whose last request lies more than a minute back, and never the asker |
| Throttle.QuietTableForgetsNobody | trenchchat/core/reaction.py:369-383 | up to that many, and on a refusal, nobody else's entry is touched |
| Throttle.Limiter.Allow | trenchchat/core/reaction.py:369-383 | the table and the answer of the specification |
| Throttle.Limiter.ForgetStale | trenchchat/core/reaction.py:378-382 | the loop deletes exactly the stale requesters |
| Throttle.Prune | trenchchat/core/reaction.py:374 | the loop keeps exactly the times less than a window ago, in order |
| Debounce.StepIsSound | trenchchat/core/network_map.py:724-742 | every change and every timer keeps at most one timer, due an interval after the last fire |
| Debounce.NothingLostNothingClose | trenchchat/core/network_map.py:724-742 | along every run fires are an interval apart, at most one timer is outstanding, and a change not yet told has one, due within an interval of when it was noted |
| Debounce.QuietChangeFiresAtOnce | trenchchat/core/network_map.py:724-736 | a change is told at once if and only if no fire lies less than an interval back |
| Debounce.Monitor.NoteChange | trenchchat/core/network_map.py:724-736 | the state after a change, whether to fire, and the delay of the timer to start; a sound monitor stays sound, and either fires or has a timer set |
| Debounce.Monitor.OnTimer | trenchchat/core/network_map.py:738-742 | a sound monitor whose timer was due stays sound, has told every change and has no timer left, and its last fire lies an interval back |
| Bandwidth.RecordingHolds | trenchchat/core/bandwidth.py:56-68 | whatever the clock does, samples stay at least the gap apart and within the age limit |
| Bandwidth.RecordingTakes | trenchchat/core/bandwidth.py:56-68 | a reading less than a quarter of a second after the last is not taken; any other is appended, and only samples more than 305 seconds old go |
| Bandwidth.HistoryIsBounded | trenchchat/core/bandwidth.py:56-68 | so at most 1221 samples are ever held |
| Bandwidth.OldestIsWithin | trenchchat/core/bandwidth.py:103-107 | the sample found is in the window and every earlier one is not |
| Bandwidth.ReportMeasures | trenchchat/core/bandwidth.py:70-98 | a window is measured from the first sample in it, or the last there is, to the last |
| Bandwidth.RestartIsCounted | trenchchat/core/bandwidth.py:110-116 | a counter seen to have restarted counts exactly what moved since |
| Bandwidth.MovingFollows | trenchchat/core/bandwidth.py:110-116 | traffic, restarts, appearances and disappearances keep the relation between the counters and what truly moved |
| Bandwidth.DeltasNeverOverstate | trenchchat/core/bandwidth.py:119-127 | the summed deltas of two readings never exceed what moved between them and equal it when nothing restarted or vanished |
| Bandwidth.ReportsNeverOverstate | trenchchat/core/bandwidth.py:70-98 | after any run each window reports at most the bytes moved between its two samples, exactly those when nothing restarted or vanished between them |
| Bandwidth.Monitor.Take | trenchchat/core/bandwidth.py:56-68 | the loop drops exactly the samples past the age limit |
| Bandwidth.Monitor.Rates | trenchchat/core/bandwidth.py:70-98 | on a fresh sample, one report for each window |
| Bandwidth.FindOldestWithin | trenchchat/core/bandwidth.py:103-107 | the loop finds the first sample in the window, or the last there is |
| Bandwidth.SumDeltas | trenchchat/core/bandwidth.py:119-127 | one pass over the interfaces in any order sums both directions |

## Left out

- Cryptography, packing and wire limits: signatures, SHA-256 and the packed forms are parameters; malformed blobs appear only as their outcome.
- Identity and scope hashes that are not 16 bytes long, hexadecimal in upper case, and hashes that do not parse.
- A published_at or version that is not a number is one value in the model, as the source refuses all of them alike.
- Member-list side effects outside the three tables: tenure, display names, callbacks, token revocation and the list of recipients.
- Documents held for confirmation and the materialising of a server's channels.
- MemberListAuthority.GateIsComplete: a roster that is packed is read back with exactly its channels. The publisher's filter and the receiver's check read the stored roster with different size limits and stop differently at a malformed entry; the model has one reader, and rows that cannot be packed are not on file.
- The time between reading the stored lists and accepting the built document in `publish_member_list`: one publish is one step.
- Two documents in flight through two different servers' scopes: every scope is its own model.
- Choosing a clean file name, message rows and membership checks in front of `request_download`, and who may be served.
- Progress figures, callbacks, retry back-off times and announcements of the download engine.
- The cache of served chunk lists: a list is computed from the rows each time. The cached one is dropped when the file is shared and when its download is forgotten, so it can outlive a row that was evicted.
- What the file store's budgets decide: which files admission evicts, and whether there is room, are inputs; within one run of `_prepare` the store gives one answer for each file. Storing a chunk that is already stored never fails for lack of room.
- Reading the messages that name an unfinished file at start: the manifest and the senders they give are an input of the restart.
- What becomes of a request without an index: with a window above one the source fails while it counts the range, with a window of one it hands no index on; the model stops at the request.
- The pruning that `on_peer_appeared` adds when a download waits for room: it is a separate event, as a budget prune is.
- An answered request whose download has no holder recorded: no reachable state has one, and the model then keeps the earlier memory of who served last.
- EngineScheduler.SchedulerInvariant: for runs of harmless events; `StepIsOrderly` says that exactly those keep it, and the runs in `EngineExamples` break it.
- EngineVerification.HeldChunksAreSigned: not for downloads that a restart rebuilt or that began on stored chunks; the list those chunks were once checked against is gone.
- EngineTrust.HonestHolderIsNeverSuspect: for a true manifest, a digest that nothing else has, and runs in which the wanted file loses no chunks; `EvictionBlamesHonestHolder` shows what a loss does. A refusal is always an honest answer.
- EngineSafety.CompleteMeansCorrect: assumes that shares meet no disagreeing leftovers among their chunks; `ShareIsWholeIffLeftoversBelowAgree` and `ShareCanCompleteOtherBytes` show why.
- MemberListConvergence.ReplicasConverge: the documents heard are those plausible by each node's own clock on arrival; a node whose clock refuses a document has not heard it.
- Held words are ordered by arrival; their text, the sender's own time stamp and the display of them are left out. Contacts added in the same instant are evicted by lowest identity.
- Friend messages to a peer with no known path wait for one; in the handshake model they are in flight.
- Last-seen bookkeeping and presence of contacts.
- Codec.AuthorInputBinds: an absent text is an empty one and the image counts by its hash, as in the source; manifest sizes that are no integers are left out, and so is a manifest name that arrives as something other than text, which the source turns into text before hashing, so that the number 5 and the text "5" hash alike.
- Decimal digits other than ASCII in version numbers, which the source's pattern also accepts.
- Delivery schedules, loss and jitter of the link shaper, and which frames a full queue drops beyond their number.
- Rounded rates and the totals of a bandwidth report; the counters of an interface are natural numbers.
- Invite tokens, image and emoji decoding, the topology gathering of the network map, and the user interface.
