# Verified models of Telegram Desktop components

Dafny models of the parts of the repository where order, counting and in-place updates matter
most, each proved against a specification of what it is for:

- `Sha1.dfy`: the packer's in-place SHA-1 against FIPS 180-4.
- `Sha1Answer.dfy`: the known answer of the standard for a short message.
- `ApiHash.dfy`: the 64-bit hash of cached lists.
- `Morphdom.dfy`: morphing one DOM tree into another.
- `StickerReorder.dfy`, `StickerSets.dfy`: saving sticker sets, with the requests and the reorder
  request that waits for all of them.
- `InviteLinks.dfy`: the cached slices of my invite links.
- `DialogsLoad.dfy`: loading dialogs page by page, with the pinned ones.
- `MessageData.dfy`: requests for the data of messages, sent together.
- `WebPages.dfy`: asking again for web pages, grouped by channel.
- `Forwarding.dfy`: forwarding messages in runs, with the stars paid and the shared callback.
- `Albums.dfy`: sending an album when its files are uploaded.
- `UpdateTree.dfy`: the walk of the updaters over an unpacked update.
- `PageCache.dfy`: the pages and DOMs of an instant view.
- `BlockedPeers.dfy`: opposing calls to block and unblock a peer.
- `PluginManager.dfy`: calling plugins and disabling those that keep failing.

Most files have the same shape. A state is a value, and every operation a function on states;
events make runs, and lemmas say what holds after any run. A class with the fields of the
original has one method for each operation, with the original's loops and branches, and each
method is proved to make the step its function describes. A request is a new positive id that
is answered at most once, and never inside the call that sends it; a cancelled request is not
answered. What the server answers is arbitrary unless a property says otherwise. Clocks, random
values and what other components say are parameters.

Some properties one would expect do not hold of the code. For these there is a lemma with the
case where they fail and one that says exactly when they hold:

- a dialog list that is answered with "not modified" is never asked for or reported again
  (`DialogsLoad.AskingWorks`, `DialogsLoad.StuckForever`, `DialogsLoad.MainIsStuck`);
- `setMyPermanent` does not count the link it adds (`InviteLinks.SetCovers`,
  `InviteLinks.PermanentIsNotCounted`);
- a failed request for web pages leaves its pages waiting until they are dropped
  (`WebPages.WaitsExactly`, `WebPages.LostForever`, `WebPages.LostPage`);
- morphing keeps the name of an element that differs from its target's only by case, which
  names in upper case never do (`Morphdom.MorphedExactly`, `Morphdom.LowerCaseStays`);
- an update overwrites the updater if the binary is to be called like it
  (`UpdateTree.UpdaterIsSafe`, `UpdateTree.UpdaterIsOverwritten`);
- an album stays unsent if its last open file cannot be prepared (`Albums.StallsExactly`,
  `Albums.StallLasts`, `Albums.AlbumStalls`);
- a page whose load fails is never loaded again (`PageCache.LostForever`,
  `PageCache.LoadIsLost`), and a jump in the history to another visit of the page on screen
  leaves the position behind (`PageCache.PopKeepsPosition`, `PageCache.PositionStaysBehind`);
- after an opposite call a callback can hear of another request than its own
  (`BlockedPeers.StaysMatched`, `BlockedPeers.WrongReplyIsHeard`).

## Model

| member | source | states |
|---|---|---|
| `Sha1.BitForms` | Telegram/SourceFiles/_other/packer.cpp:66-70 | the packer's OR forms of choose and majority are the XOR forms of FIPS 180-4, section 4.1.1 |
| `Sha1.ChoosePhase` | Telegram/SourceFiles/_other/packer.cpp:66-67 | rounds 0 to 19 of the packer are the rounds of FIPS 180-4, section 6.1.2 |
| `Sha1.ParityPhases` | Telegram/SourceFiles/_other/packer.cpp:68-70 | so are rounds 20 to 39 and 60 to 79, each with its own constant |
| `Sha1.MajorityPhase` | Telegram/SourceFiles/_other/packer.cpp:69 | so are rounds 40 to 59 |
| `Sha1.Extend` | Telegram/SourceFiles/_other/packer.cpp:61-64 | the schedule word written for a round is the one the standard defines from the block; only words already scheduled are read |
| `Sha1.ScheduleBits` | Telegram/SourceFiles/_other/packer.cpp:61-64 | a bit of a later schedule word is odd parity of the bits next to it in the words 3, 8, 14 and 16 places before |
| `Sha1.ShiftSwap` | Telegram/SourceFiles/_other/packer.cpp:51-59 | one shift of the five working variables is one step of the standard |
| `Sha1.EarlyRounds` | Telegram/SourceFiles/_other/packer.cpp:66-67 | the first 20 rounds, whatever `temp` held from word 16 on |
| `Sha1.LaterRounds` | Telegram/SourceFiles/_other/packer.cpp:68-70 | the other 60 rounds, with all 80 words scheduled |
| `Sha1.PartHash` | Telegram/SourceFiles/_other/packer.cpp:48-80 | the in-place rounds add up to the compression function of the standard for the block in the first 16 words, and no stale word of `temp` is used |
| `Sha1.ReadBlock` | Telegram/SourceFiles/_other/packer.cpp:89-95 | a full block is read as 16 big-endian words of the message |
| `Sha1.HashFull` | Telegram/SourceFiles/_other/packer.cpp:89-97 | after the loop over full blocks `sha` is the hash value of as many blocks of the padded message |
| `Sha1.AppendByte` | Telegram/SourceFiles/_other/packer.cpp:103 | one byte put into the next empty place makes the words of the longer byte string |
| `Sha1.ReadTail` | Telegram/SourceFiles/_other/packer.cpp:99-105 | the rest of the message and the stop byte end up as the words of the last bytes of the padded message |
| `Sha1.BlockOfPadded` | Telegram/SourceFiles/_other/packer.cpp:99-111 | which words of the padded message a block of that shape is |
| `Sha1.StopBlock` | Telegram/SourceFiles/_other/packer.cpp:106-109 | a tail of 56 to 63 bytes is hashed as a block of its own and the next one starts clear |
| `Sha1.ShiftIsLow` | Telegram/SourceFiles/_other/packer.cpp:110 | the 32-bit shift of the length is the low word of the length in bits |
| `Sha1.LastBlock` | Telegram/SourceFiles/_other/packer.cpp:110-111 | the last block holds the low word of the bit length, which the code gets by a shift of the length |
| `Sha1.FinishHash` | Telegram/SourceFiles/_other/packer.cpp:106-111 | after tails of 0 to 55 and of 56 to 63 bytes alike, `sha` is the hash value of the whole padded message |
| `Sha1.WriteDigest` | Telegram/SourceFiles/_other/packer.cpp:113-117 | the 20 bytes are the digest in big-endian order and nothing else is written |
| `Sha1.PaddingAgrees` | Telegram/SourceFiles/_other/packer.cpp:110 | padding with only the low word of the bit length is the padding of FIPS 180-4, section 5.1.1, exactly for messages under 2^29 bytes |
| `Sha1Answer.AbcDigest` | Telegram/SourceFiles/_other/packer.cpp:84-120 | the known answer of FIPS 180-4 for the message "abc": the functions the packer is proved against give just its 20 bytes |
| `Sha1.HashSha1` | Telegram/SourceFiles/_other/packer.cpp:84-120 | `dest` gets SHA-1 of the message for every message under 2^29 bytes, and for longer ones the digest of the message padded with the low word |
| `ApiHash.UpdateBijective` | Telegram/SourceFiles/api/api_hash.h:40-45 | for each value one update has a two-sided inverse on the 64-bit states |
| `ApiHash.UpdateInValue` | Telegram/SourceFiles/api/api_hash.h:40-45 | for each state exactly one value leads to a given new state |
| `ApiHash.HashUpdate` | Telegram/SourceFiles/api/api_hash.h:40-45 | the four statements are one update |
| `ApiHash.UpdateAnswers` | Telegram/SourceFiles/api/api_hash.h:36-45 | what some updates come to, in numbers |
| `ApiHash.CountHash` | Telegram/SourceFiles/api/api_hash.h:63-70 | the loop folds the updates over the list, as `CountDocumentVectorHash` uses it for document ids |
| `ApiHash.FoldInjective` | Telegram/SourceFiles/api/api_hash.h:63-70 | two states stay different over any further values |
| `ApiHash.HashDependsOnMiddle` | Telegram/SourceFiles/api/api_hash.h:63-70 | lists with a common start and end have equal hashes exactly if their middles lead to the same state |
| `ApiHash.OneChangeDetected` | Telegram/SourceFiles/api/api_hash.h:63-70 | lists of one length that differ at exactly one place have different hashes |
| `ApiHash.TwoChangesMayCollide` | Telegram/SourceFiles/api/api_hash.h:63-70 | two changes can cancel out: some second value always restores the hash |
| `ApiHash.CountStickersOrderHash` | Telegram/SourceFiles/api/api_hash.cpp:38-61 | the loop computes the fold over the counted sets, or 0 when an outdated default set is found and asked for |
| `ApiHash.OrderHashExactly` | Telegram/SourceFiles/api/api_hash.cpp:38-61 | which hashes are folded, set by set, and when the result is 0 instead |
| `ApiHash.OrderHashGrows` | Telegram/SourceFiles/api/api_hash.cpp:38-61 | no set gives 0, and a set more is one update more if it counts |
| `ApiHash.ChangedSetDetected` | Telegram/SourceFiles/api/api_hash.cpp:38-61 | a new hash of one counted set changes the result exactly if no outdated default set makes it 0 |
| `Morphdom.MatchesUpToCase` | Telegram/Resources/iv_html/morphdom-umd.min.2.7.2.js:1 | trees that match are the same tree up to the case of element names |
| `Morphdom.MorphedMatches` | Telegram/Resources/iv_html/morphdom-umd.min.2.7.2.js:1 | for every pair of trees the result of morphing is the target up to the case of element names |
| `Morphdom.MorphedExactly` | Telegram/Resources/iv_html/morphdom-umd.min.2.7.2.js:1 | the result is the target exactly if every element updated in place has just the name of its target |
| `Morphdom.MorphedHtml` | Telegram/Resources/iv_html/morphdom-umd.min.2.7.2.js:1 | where names are reported in upper case, as in HTML documents, the result is the target |
| `Morphdom.LowerCaseStays` | Telegram/Resources/iv_html/morphdom-umd.min.2.7.2.js:1 | elsewhere it need not be: an element keeps its own lower-case name |
| `Morphdom.UpdatedSelf` | Telegram/Resources/iv_html/morphdom-umd.min.2.7.2.js:1 | morphing an element to an equal one changes nothing, so skipping it, as the callback of `page.js` asks for, changes no result |
| `Morphdom.MorphAttrs` | Telegram/Resources/iv_html/morphdom-umd.min.2.7.2.js:1 | after `morphAttrs` the attributes are, as a map, those of the target |
| `Morphdom.NamesMatchExactly` | Telegram/Resources/iv_html/morphdom-umd.min.2.7.2.js:1 | element names match if they are the same or one is the other one in upper case, letter by letter |
| `Morphdom.IsEqualNode` | Telegram/Resources/iv_html/morphdom-umd.min.2.7.2.js:1 | the recursive comparison decides equality of the trees |
| `Morphdom.MorphEl` | Telegram/Resources/iv_html/morphdom-umd.min.2.7.2.js:1 | `morphEl`: in place, the element ends up as the pure update of its tree to the target's says, with or without skipping equal elements; without skipping, its children are those the reuse plan names |
| `Morphdom.FindMatch` | Telegram/Resources/iv_html/morphdom-umd.min.2.7.2.js:1 | the walk over old siblings updates the first compatible one and removes those before it, and so stays on the reuse plan |
| `Morphdom.AppendChild` | Telegram/Resources/iv_html/morphdom-umd.min.2.7.2.js:1 | a target child without a counterpart is moved over as it is |
| `Morphdom.MorphChildren` | Telegram/Resources/iv_html/morphdom-umd.min.2.7.2.js:1 | `morphChildren`: the children are rebuilt in order, each as the update of the reused child or as the target child itself |
| `Morphdom.Cleanup` | Telegram/Resources/iv_html/morphdom-umd.min.2.7.2.js:1 | `cleanupFromEl`: exactly the old children that were not used are removed |
| `Morphdom.Morph` | Telegram/Resources/iv_html/morphdom-umd.min.2.7.2.js:1 | for every pair of trees the result is the morphed tree, which with upper-case names is a snapshot of the target; it is the old root exactly if the roots are compatible, and the target itself if their kinds differ |
| `StickerReorder.SaveKeepsInv` | Telegram/SourceFiles/apiwrap.cpp:1498-1503 | a save cancels what the last one left and starts from nothing outstanding |
| `StickerReorder.SaveSends` | Telegram/SourceFiles/apiwrap.cpp:1498-1551 | a save forgets what was outstanding and sends one request for each change, in order, or the new order at once if there is no change |
| `StickerReorder.ReplyKeepsInv` | Telegram/SourceFiles/apiwrap.cpp:1541-1551 | an answered change either leaves others to wait for or sends the order |
| `StickerReorder.ReplyExactly` | Telegram/SourceFiles/apiwrap.cpp:1541-1551 | a reply takes just its own request away, and sends the order exactly if no other one is left |
| `StickerReorder.RunKeepsInv` | Telegram/SourceFiles/apiwrap.cpp:1498-1551 | the invariant of the protocol over any saves and replies |
| `StickerReorder.ReorderBarrier` | Telegram/SourceFiles/apiwrap.cpp:1498-1551 | over any run at most one reorder request is outstanding, alone and with the latest order; an order is sent at most once per save, and the latest one has been sent exactly when all changes were answered and it has two sets or more |
| `StickerSets.Stickers.SetDisenabled` | Telegram/SourceFiles/apiwrap.cpp:1541-1551 | the handler makes the step of the protocol |
| `StickerSets.Stickers.Reordered` | Telegram/SourceFiles/apiwrap.cpp:1524-1527 | so does the answer to the reorder request |
| `StickerSets.Stickers.DropRecent` | Telegram/SourceFiles/apiwrap.cpp:1613-1620 | the erasing loop keeps the recent stickers the removed set does not have, in order |
| `StickerSets.Stickers.RemoveSets` | Telegram/SourceFiles/apiwrap.cpp:1574-1654 | after the loop over removed sets, the sets, recents and uninstall requests are what the removals as a whole make of them |
| `StickerSets.Stickers.ClearInstalled` | Telegram/SourceFiles/apiwrap.cpp:1657-1667 | only sets of this type that are not archived lose the flag |
| `StickerSets.Stickers.Arrange` | Telegram/SourceFiles/apiwrap.cpp:1669-1703 | the order becomes the given one without missing sets, with those sets installed and archived ones restored once |
| `StickerSets.Stickers.Sweep` | Telegram/SourceFiles/apiwrap.cpp:1705-1717 | exactly the sets that nothing keeps are erased |
| `StickerSets.Stickers.SaveStickerSets` | Telegram/SourceFiles/apiwrap.cpp:1482-1754 | the whole new state: sets, order, recents and requests; the log grows by just the requests of the save |
| `StickerSets.OrderIsInstalled` | Telegram/SourceFiles/apiwrap.cpp:1656-1703 | every set of the saved order is stored and installed, and a stored set of the type that is not archived is installed exactly if it is in the order |
| `StickerSets.SurvivorsExactly` | Telegram/SourceFiles/apiwrap.cpp:1574-1717 | a set is still stored exactly if it was there and the order, a keeping flag, a lock, or being an installed set of another type keeps it; being removed overrides only the first and the last |
| `StickerSets.SavedExactly` | Telegram/SourceFiles/apiwrap.cpp:1574-1703 | every field of a set that is still stored: archived, installed and its date, and no other one changes |
| `StickerSets.SavedRequests` | Telegram/SourceFiles/apiwrap.cpp:1574-1703 | the requests of a save: one to uninstall for each time a removed set is there and not archived when its turn comes, then one to install for each archived set of the order that is not removed, and the order itself only if there is none of these |
| `StickerSets.RecentsExactly` | Telegram/SourceFiles/apiwrap.cpp:1586-1620 | recents hold each sticker as often as before if no removed set has it, and otherwise not at all |
| `StickerSets.KeptExactly` | Telegram/SourceFiles/apiwrap.cpp:1586-1620 | which recent stickers those are, one by one and in order |
| `StickerSets.PresentSplits` | Telegram/SourceFiles/apiwrap.cpp:1669-1703 | the order keeps exactly the sets that are stored, in the order given |
| `StickerSets.RemovedMore` | Telegram/SourceFiles/apiwrap.cpp:1574-1654 | one removal after others is a removal from what they left |
| `InviteLinks.PrependKeepsFirst` | Telegram/SourceFiles/api/api_invite_links.cpp:162-198 | a new link leaves my permanent link first, and tells when there is one afterwards |
| `InviteLinks.PrependedExactly` | Telegram/SourceFiles/api/api_invite_links.cpp:162-198 | a new link is in the list, after my permanent one or in its place, all others stay in order, and the count follows |
| `InviteLinks.EditedExactly` | Telegram/SourceFiles/api/api_invite_links.cpp:283-306 | an edit replaces the first link with that text where it is, or removes it if it is revoked now, and leaves all others |
| `InviteLinks.UpdatedExactly` | Telegram/SourceFiles/api/api_invite_links.cpp:522-532 | an external update replaces all links with that text and no others |
| `InviteLinks.PermanentSetExactly` | Telegram/SourceFiles/api/api_invite_links.cpp:633-664 | setting my permanent link puts it first in place of the old one, or updates the usage of the same one |
| `InviteLinks.ClearedExactly` | Telegram/SourceFiles/api/api_invite_links.cpp:678-704 | clearing it removes just that one |
| `InviteLinks.EditKeepsFirst` | Telegram/SourceFiles/api/api_invite_links.cpp:283-306 | an edit keeps it first exactly if it does not make a link further down active |
| `InviteLinks.UpdateKeepsFirst` | Telegram/SourceFiles/api/api_invite_links.cpp:522-532 | so does an external update |
| `InviteLinks.SetKeepsFirst` | Telegram/SourceFiles/api/api_invite_links.cpp:633-664 | setting my permanent link keeps it first |
| `InviteLinks.ClearKeepsFirst` | Telegram/SourceFiles/api/api_invite_links.cpp:678-704 | after clearing there is none |
| `InviteLinks.MergeKeepsFirst` | Telegram/SourceFiles/api/api_invite_links.cpp:427-450 | a received slice keeps it first exactly if I had one before or the slice has at most one active permanent link |
| `InviteLinks.MergeContents` | Telegram/SourceFiles/api/api_invite_links.cpp:427-450 | which links are in the slice after a merge: mine and all others received, but no second active one |
| `InviteLinks.MergedExactly` | Telegram/SourceFiles/api/api_invite_links.cpp:426-451 | the order and the count of a merged slice |
| `InviteLinks.StepExactly` | Telegram/SourceFiles/api/api_invite_links.cpp:162-205 | every event has its effect on the slice and the shown link of its own peer, and none on other peers |
| `InviteLinks.CountCovers` | Telegram/SourceFiles/api/api_invite_links.cpp:162-198 | prepend, edit, update, clear and merge keep the count at least the length of the list |
| `InviteLinks.SetCovers` | Telegram/SourceFiles/api/api_invite_links.cpp:660-664 | setting my permanent link keeps it exactly if the count was larger or the link was the same: a new link is not counted |
| `InviteLinks.PermanentIsNotCounted` | Telegram/SourceFiles/api/api_invite_links.cpp:660-664 | a peer whose first link is my permanent one has one link and a count of 0 |
| `InviteLinks.StepKeepsInv` | Telegram/SourceFiles/api/api_invite_links.cpp:162-205 | every event keeps the order and the link shown for the chat right, if the server keeps to what is taken from it |
| `InviteLinks.RunKeepsInv` | Telegram/SourceFiles/api/api_invite_links.cpp:426-451 | in every reachable cache there is at most one active permanent link, at the first place, and it is the one shown for the chat |
| `InviteLinks.InviteLinks.PrependMyToFirstSlice` | Telegram/SourceFiles/api/api_invite_links.cpp:162-205 | the branches with their counts make the step of the model |
| `InviteLinks.InviteLinks.EditIn` | Telegram/SourceFiles/api/api_invite_links.cpp:290-304 | the found link is erased or replaced |
| `InviteLinks.InviteLinks.EditedBy` | Telegram/SourceFiles/api/api_invite_links.cpp:279-319 | an edit with its replacement, and no change for an answer that is no link |
| `InviteLinks.InviteLinks.ApplyExternalUpdate` | Telegram/SourceFiles/api/api_invite_links.cpp:522-532 | all links with that text are replaced |
| `InviteLinks.InviteLinks.SetMyPermanent` | Telegram/SourceFiles/api/api_invite_links.cpp:620-668 | both branches: another link, or the same one with a new usage |
| `InviteLinks.InviteLinks.ClearMyPermanent` | Telegram/SourceFiles/api/api_invite_links.cpp:678-702 | the link and the one shown go |
| `InviteLinks.InviteLinks.ParseSlice` | Telegram/SourceFiles/api/api_invite_links.cpp:721-741 | links of the answer in order, without my known permanent one |
| `InviteLinks.InviteLinks.BringPermanentToFront` | Telegram/SourceFiles/api/api_invite_links.cpp:28-36 | the rotation moves the first active permanent link to the front and keeps the order of the others |
| `InviteLinks.InviteLinks.RemovePermanent` | Telegram/SourceFiles/api/api_invite_links.cpp:38-43 | all active permanent links are removed |
| `InviteLinks.InviteLinks.MyLinksReceived` | Telegram/SourceFiles/api/api_invite_links.cpp:426-451 | the merge of a received slice into the cache |
| `DialogsLoad.NextPageExists` | Telegram/SourceFiles/apiwrap.cpp:972-1017 | there is a next page exactly if some usable dialog came with its dated top message, and then it starts at a usable dialog |
| `DialogsLoad.NextOffsetExactly` | Telegram/SourceFiles/apiwrap.cpp:972-1005 | the next page starts at the date of the last dialog whose top message came with a date, and at the last dialog with a peer and a top message |
| `DialogsLoad.AskedPage` | Telegram/SourceFiles/apiwrap.cpp:884-889 | in every run a list request asks for the page its load has got to, with 20 dialogs at the start and 500 later |
| `DialogsLoad.RunAdvances` | Telegram/SourceFiles/apiwrap.cpp:1006-1016 | in every run a load begins at the start, moves on to just where the last slice says, and stays there otherwise |
| `DialogsLoad.RequestedExactly` | Telegram/SourceFiles/apiwrap.cpp:859-938 | asking for a folder opens its load if need be and asks for its next page, and its pinned dialogs once, exactly if it is idle and not blocked |
| `DialogsLoad.NeededExactly` | Telegram/SourceFiles/apiwrap.cpp:952-970 | which list is asked for next: the rest of the main one, then the archive, or none |
| `DialogsLoad.ListDoneExactly` | Telegram/SourceFiles/apiwrap.cpp:891-928 | what an answer to a list makes of its load, before the flags and the next request |
| `DialogsLoad.RestExactly` | Telegram/SourceFiles/apiwrap.cpp:928-930 | what a failed list and an answer with pinned dialogs make of their load |
| `DialogsLoad.StaysUpToDate` | Telegram/SourceFiles/apiwrap.cpp:940-950 | the blocked flags stay what they stand for, exactly but for a failed request for a page that is too old, and for a list that ends before its pinned dialogs came |
| `DialogsLoad.AskingUpdates` | Telegram/SourceFiles/apiwrap.cpp:932-937 | asking for the main list sets them right |
| `DialogsLoad.UnblockedGoesOn` | Telegram/SourceFiles/apiwrap.cpp:1079-1089 | moving the limit back lets the main list go on |
| `DialogsLoad.StepKeepsInv` | Telegram/SourceFiles/apiwrap.cpp:859-1077 | every event keeps the invariant and adds to a folder's cycles, lists and pinned answers exactly what it brought |
| `DialogsLoad.RunKeepsInv` | Telegram/SourceFiles/apiwrap.cpp:859-1077 | in every reachable state a list request in flight has its load, which has not received the list and waits for that request; the counts are those of the run, and a load is stuck exactly if an answer was "not modified" |
| `DialogsLoad.ReportedOnce` | Telegram/SourceFiles/apiwrap.cpp:1027-1044 | a folder was reported as done as often as both its whole list and its pinned dialogs came; each cycle is reported once, and at most one is open |
| `DialogsLoad.AskingWorks` | Telegram/SourceFiles/apiwrap.cpp:866-938 | asking for a list that has not come gets a request in flight exactly if no answer was "not modified" and the load is not blocked by date |
| `DialogsLoad.StuckForever` | Telegram/SourceFiles/apiwrap.cpp:893-896 | after a "not modified" answer a folder is never reported again, whatever happens |
| `DialogsLoad.MainIsStuck` | Telegram/SourceFiles/apiwrap.cpp:893-896 | so it is for the main list when its first request is answered so |
| `DialogsLoad.ApiWrap.RequestMoreDialogs` | Telegram/SourceFiles/apiwrap.cpp:866-938 | the guards, the request with its offset and page size, the pinned request and the blocked flags |
| `DialogsLoad.ApiWrap.RequestDialogs` | Telegram/SourceFiles/apiwrap.cpp:859-864 | a folder's load is opened if there is none |
| `DialogsLoad.ApiWrap.RefreshDialogsLoadBlocked` | Telegram/SourceFiles/apiwrap.cpp:940-950 | both flags follow from the state of the main load |
| `DialogsLoad.ApiWrap.RequestMoreDialogsIfNeeded` | Telegram/SourceFiles/apiwrap.cpp:952-970 | what is asked for next: exceptions, the main list, or the archive |
| `DialogsLoad.ApiWrap.FindOffset` | Telegram/SourceFiles/apiwrap.cpp:972-1005 | the loops from the back find the offset the model names |
| `DialogsLoad.ApiWrap.UpdateDialogsOffset` | Telegram/SourceFiles/apiwrap.cpp:1006-1016 | the next page, or the end of the list |
| `DialogsLoad.ApiWrap.DialogsLoadFinish` | Telegram/SourceFiles/apiwrap.cpp:1027-1044 | a load is removed and reported only with both parts in |
| `DialogsLoad.ApiWrap.RequestPinnedDialogs` | Telegram/SourceFiles/apiwrap.cpp:1046-1059 | pinned dialogs are asked for once per load |
| `DialogsLoad.ApiWrap.ListDone` | Telegram/SourceFiles/apiwrap.cpp:891-928 | the handler of a list answer of each kind |
| `DialogsLoad.ApiWrap.ListFailed` | Telegram/SourceFiles/apiwrap.cpp:928-930 | the handler of a failed one, which finds its load in every reachable state |
| `DialogsLoad.ApiWrap.PinnedDone` | Telegram/SourceFiles/apiwrap.cpp:1052-1076 | the handler of pinned dialogs, good or bad |
| `DialogsLoad.ApiWrap.SupportTimeSliceChanged` | Telegram/SourceFiles/apiwrap.cpp:265-269 | a new date limit |
| `DialogsLoad.ApiWrap.RequestMoreBlockedByDateDialogs` | Telegram/SourceFiles/apiwrap.cpp:1079-1089 | the limit moves back and the main list is asked for |
| `MessageData.AddedIds` | Telegram/SourceFiles/apiwrap.cpp:584-597 | a new entry changes the messages of no request |
| `MessageData.MarkedIds` | Telegram/SourceFiles/apiwrap.cpp:647-652 | sending moves just the entries not sent yet to the new request |
| `MessageData.RemainingExactly` | Telegram/SourceFiles/apiwrap.cpp:692-707 | exactly the entries of the request are erased |
| `MessageData.CallsAt` | Telegram/SourceFiles/apiwrap.cpp:692-707 | of all messages just those of the request are called back, with all their callbacks |
| `MessageData.ResolveAllKeeps` | Telegram/SourceFiles/apiwrap.cpp:629-683 | resolving sends whatever was not sent, in every channel walked, and keeps the tables in step with the requests |
| `MessageData.ResolvedExactly` | Telegram/SourceFiles/apiwrap.cpp:629-683 | the queued call sends what is not sent yet of every channel, in one request each, drops channels without entries, and leaves all requests in flight |
| `MessageData.RepliedExactly` | Telegram/SourceFiles/apiwrap.cpp:685-715 | a reply takes just the entries of its request away, and a channel with the last of them |
| `MessageData.StepKeeps` | Telegram/SourceFiles/apiwrap.cpp:584-715 | every event keeps the invariant, and every callback of a message is called or still waits |
| `MessageData.RunKeeps` | Telegram/SourceFiles/apiwrap.cpp:584-715 | over any run the callbacks given for a message are those called followed by those waiting, in order; a message not sent yet has a resolve call queued, and a channel with requests in flight keeps its table |
| `MessageData.ReplyCalls` | Telegram/SourceFiles/apiwrap.cpp:685-715 | a reply calls just the waiting callbacks of the messages it was asked for |
| `MessageData.AskedOnce` | Telegram/SourceFiles/apiwrap.cpp:599-610 | no message is in two requests in flight |
| `MessageData.AllCalled` | Telegram/SourceFiles/apiwrap.cpp:584-715 | when nothing is queued or in flight every callback has been called |
| `MessageData.ApiWrap.AddRequest` | Telegram/SourceFiles/apiwrap.cpp:588-596 | the entry is found or put at its sorted place |
| `MessageData.ApiWrap.RequestMessageData` | Telegram/SourceFiles/apiwrap.cpp:584-597 | the new state, with a resolve call queued if the entry was not sent |
| `MessageData.ApiWrap.CollectMessageIds` | Telegram/SourceFiles/apiwrap.cpp:599-610 | the ids that were not sent, in order |
| `MessageData.ApiWrap.SendUnsent` | Telegram/SourceFiles/apiwrap.cpp:658-680 | one request for all of them, or none |
| `MessageData.ApiWrap.ResolveChannel` | Telegram/SourceFiles/apiwrap.cpp:653-682 | an empty channel is dropped, another one resolved |
| `MessageData.ApiWrap.ResolveMessageDatas` | Telegram/SourceFiles/apiwrap.cpp:629-683 | the walk over all tables |
| `MessageData.ApiWrap.Extract` | Telegram/SourceFiles/apiwrap.cpp:692-707 | the erasing loop splits a table into what stays and what is called |
| `MessageData.ApiWrap.FinalizeMessageDataRequest` | Telegram/SourceFiles/apiwrap.cpp:685-715 | the new state after a reply, good or bad |
| `WebPages.GroupsExactly` | Telegram/SourceFiles/apiwrap.cpp:2362-2385 | the groups are exactly the channels of due pages |
| `WebPages.DueIsSent` | Telegram/SourceFiles/apiwrap.cpp:2362-2426 | every due page ends with the id of the one new request that carries its message |
| `WebPages.SentOnce` | Telegram/SourceFiles/apiwrap.cpp:2391-2412 | every new request is for a channel of its own: its id is fixed by the channel it is for, so no two new requests carry messages of the same one |
| `WebPages.SentExactly` | Telegram/SourceFiles/apiwrap.cpp:2354-2430 | a page keeps its request, or none, exactly if it was sent, its time has not come, or no message is known for it; any other page gets a new request |
| `WebPages.IdsInOrder` | Telegram/SourceFiles/apiwrap.cpp:2362-2389 | a request asks for the messages of its pages in their order |
| `WebPages.RunKeepsInv` | Telegram/SourceFiles/apiwrap.cpp:2331-2430 | in every reachable state no tag is left, a page waits for a request in flight or for one that failed, and a failed request is not in flight |
| `WebPages.WaitsExactly` | Telegram/SourceFiles/apiwrap.cpp:2331-2430 | in every run a page that was sent waits for a request in flight exactly if its request has not failed |
| `WebPages.LostForever` | Telegram/SourceFiles/apiwrap.cpp:2394-2414 | there is no handler for a failed request: however the run goes on, its pages wait for it exactly until they are dropped |
| `WebPages.LostPage` | Telegram/SourceFiles/apiwrap.cpp:2394-2414 | a run after which a page waits for a request that failed |
| `WebPages.UnansweredExactly` | Telegram/SourceFiles/apiwrap.cpp:2678-2689 | exactly the pages of the answered request are removed |
| `WebPages.RepliedExactly` | Telegram/SourceFiles/apiwrap.cpp:2673-2691 | a reply ends its request: its pages wait no more, those that still wait for their data fail, and all others stay as they are |
| `WebPages.UnansweredInOrder` | Telegram/SourceFiles/apiwrap.cpp:2678-2689 | in their order |
| `WebPages.RequestedExactly` | Telegram/SourceFiles/apiwrap.cpp:2331-2335 | a page that waits for its data and has not failed is added unless it is there; nothing else changes |
| `WebPages.FailedExactly` | Telegram/SourceFiles/apiwrap.cpp:2679-2684 | of those, exactly the ones still waiting fail, and no other page changes |
| `WebPages.TagMeans` | Telegram/SourceFiles/apiwrap.cpp:2362-2385 | what a tag says about the place of a page's channel among the groups |
| `WebPages.ApiWrap.RequestWebPageDelayed` | Telegram/SourceFiles/apiwrap.cpp:2331-2335 | a waiting page is added unless it is there |
| `WebPages.ApiWrap.TagPages` | Telegram/SourceFiles/apiwrap.cpp:2362-2389 | the first pass numbers channels as they come up, gathers their messages, and tags each due page |
| `WebPages.ApiWrap.SendGroups` | Telegram/SourceFiles/apiwrap.cpp:2391-2412 | one request for each group, by number |
| `WebPages.ApiWrap.SettlePages` | Telegram/SourceFiles/apiwrap.cpp:2413-2426 | the second pass replaces each tag |
| `WebPages.ApiWrap.ResolveWebPages` | Telegram/SourceFiles/apiwrap.cpp:2354-2430 | the two passes with their negative tags equal direct grouping by channel |
| `WebPages.ApiWrap.GotWebPages` | Telegram/SourceFiles/apiwrap.cpp:2673-2691 | the erasing loop makes the step of the model |
| `Forwarding.EraseMusic` | Telegram/SourceFiles/apiwrap.cpp:3456-3464 | the erasing loop splits saved music from the other items, in order |
| `Forwarding.MusicSplits` | Telegram/SourceFiles/apiwrap.cpp:3456-3464 | no item is lost by that |
| `Forwarding.PartsInOrder` | Telegram/SourceFiles/apiwrap.cpp:3456-3464 | and both parts keep the order of the items |
| `Forwarding.RunsAreUnique` | Telegram/SourceFiles/apiwrap.cpp:3644-3681 | there is one way to cut a list into runs that are not empty, have one peer each, and change peer from one to the next |
| `Forwarding.SendPays` | Telegram/SourceFiles/apiwrap.cpp:3556-3564 | a sent batch pays its price as far as stars are left: all batches together pay the smaller of the approved stars and the price of all items, and paid and left make up the approved stars |
| `Forwarding.AnySplitPays` | Telegram/SourceFiles/apiwrap.cpp:3556-3564 | for any split into batches and any price that is not negative, what is paid in all is the smaller of the approved stars and the price of all items |
| `Forwarding.LoopForwards` | Telegram/SourceFiles/apiwrap.cpp:3644-3682 | the loop and the last send cut the items into such runs, pair every item with its random id, and pay the stars |
| `Forwarding.OwnMessagesFail` | Telegram/SourceFiles/apiwrap.cpp:3484-3487 | over any replies just the local messages of the requests that failed are marked as failed |
| `Forwarding.SendAccumulated` | Telegram/SourceFiles/apiwrap.cpp:3551-3641 | one request is counted, priced and sent |
| `Forwarding.ForwardMessages` | Telegram/SourceFiles/apiwrap.cpp:3449-3683 | music first; nothing else to send calls back at once; otherwise the requests are the runs of the items, and a request has its own local messages if they are made, which they are for an item forwarded alone |
| `Forwarding.SharedCallback.Succeeded` | Telegram/SourceFiles/apiwrap.cpp:3615-3617 | one success less to wait for |
| `Forwarding.RunCounts` | Telegram/SourceFiles/apiwrap.cpp:3473-3482 | the counter is the number of requests without success, over any replies |
| `Forwarding.CalledOnce` | Telegram/SourceFiles/apiwrap.cpp:3473-3482 | the success callback is called exactly once if every request succeeded, and otherwise never |
| `Albums.SendsExactly` | Telegram/SourceFiles/apiwrap.cpp:4785-4821 | an album is sent exactly if it was not yet, every remaining file has its media, and some message is left |
| `Albums.SendIfReadyExactly` | Telegram/SourceFiles/apiwrap.cpp:4785-4863 | what is sent for the items, with the first message that is left, and what becomes of the album |
| `Albums.MoveCaptionExactly` | Telegram/SourceFiles/storage/localimageloader.cpp:393-407 | the caption that moves is put after the one of the next item, on a new line, or alone, in the message and in its prepared media |
| `Albums.RemoveItemExactly` | Telegram/SourceFiles/storage/localimageloader.cpp:389-409 | just the item of the message goes |
| `Albums.FillMediaExactly` | Telegram/SourceFiles/storage/localimageloader.cpp:365-374 | an upload fills just the item of its message, with the caption the message has |
| `Albums.TaskExactly` | Telegram/SourceFiles/storage/localimageloader.cpp:1078-1089 | a prepared file gets its message, and one that could not be prepared goes |
| `Albums.UploadExactly` | Telegram/SourceFiles/apiwrap.cpp:4484-4490 | what a good and a failed upload change |
| `Albums.DestroyedExactly` | Telegram/SourceFiles/apiwrap.cpp:4767-4783 | what a message that goes takes along |
| `Albums.AnswersExactly` | Telegram/SourceFiles/apiwrap.cpp:4736-4745 | what the answers to a sent album change |
| `Albums.FillKeepsInv` | Telegram/SourceFiles/storage/localimageloader.cpp:365-374 | an upload fills an item that had no media |
| `Albums.DestroyKeepsInv` | Telegram/SourceFiles/apiwrap.cpp:4767-4783 | a message that goes has its item in the album, and takes it along |
| `Albums.MoveKeepsInv` | Telegram/SourceFiles/storage/localimageloader.cpp:393-407 | the caption of the first item moves on, into the message and the prepared media alike |
| `Albums.RunKeepsInv` | Telegram/SourceFiles/apiwrap.cpp:4752-4877 | over any uploads, cancels and failures an album is sent at most once, and the reply to an upload finds the album listed and an item without media |
| `Albums.SendsWhatRemains` | Telegram/SourceFiles/apiwrap.cpp:4796-4863 | what is sent is exactly the media of the remaining items, in order, each with its message's caption; only an upload or a message that goes can send it |
| `Albums.StallsExactly` | Telegram/SourceFiles/storage/localimageloader.cpp:1078-1089 | an album waits although nothing is missing exactly when the last file without media could not be prepared |
| `Albums.AlbumStalls` | Telegram/SourceFiles/storage/localimageloader.cpp:1078-1089 | a run of an album of two files that ends so |
| `Albums.StallLasts` | Telegram/SourceFiles/storage/localimageloader.cpp:1078-1089 | then only the end of a message can make it go |
| `Albums.SendingAlbum.SendAlbumIfReady` | Telegram/SourceFiles/apiwrap.cpp:4785-4863 | the branches: sent, empty, not ready, no message, paid, single, several |
| `Albums.SendingAlbum.FillMediaOf` | Telegram/SourceFiles/storage/localimageloader.cpp:365-374 | the media and the random id of the item |
| `Albums.SendingAlbum.RemoveItemOf` | Telegram/SourceFiles/storage/localimageloader.cpp:389-409 | the item goes, and its caption if it was the first |
| `Albums.SendingAlbum.RefreshMediaCaption` | Telegram/SourceFiles/storage/localimageloader.cpp:376-387 | prepared media get the new caption |
| `Albums.SendingAlbum.UploadDone` | Telegram/SourceFiles/apiwrap.cpp:4484-4490 | a late reply for a message that is gone is dropped, another one fills the item |
| `Albums.SendingAlbum.DestroyMessage` | Telegram/SourceFiles/apiwrap.cpp:4767-4783 | a message that goes, before or after the album was sent |
| `Albums.SendingAlbum.RemoveFromAlbum` | Telegram/SourceFiles/storage/localimageloader.cpp:1078-1089 | a file that could not be prepared |
| `Albums.SendingAlbum.SendSucceeded` | Telegram/SourceFiles/apiwrap.cpp:4736-4745 | the handlers of success |
| `Albums.SendingAlbum.SendDidNotSucceed` | Telegram/SourceFiles/apiwrap.cpp:4868-4876 | the handlers of failure |
| `UpdateTree.TdataExactly` | Telegram/SourceFiles/_other/updater_linux.cpp:258-260 | the test on the whole path skips just the folder `tdata` at the top |
| `UpdateTree.FilesExactly` | Telegram/SourceFiles/_other/updater_linux.cpp:250-285 | the files of the copy list are all files of the update but those in `tdata` and the ready file, each as often as it is there |
| `UpdateTree.CopiedExactly` | Telegram/SourceFiles/_other/updater_linux.cpp:250-285 | a file is copied exactly if it is somewhere below the update, not in `tdata`, and not the ready file, whose name counts without case on Windows |
| `UpdateTree.MadeExactly` | Telegram/SourceFiles/_other/updater_linux.cpp:241-253 | a directory is made exactly if it is one of the update outside of `tdata`, under the target |
| `UpdateTree.CleanExactly` | Telegram/SourceFiles/_other/updater_linux.cpp:250-285 | an update is refused exactly if a directory outside of `tdata` does not open or a file there has the name of the updater, up to case |
| `UpdateTree.TargetExactly` | Telegram/SourceFiles/_other/updater_linux.cpp:265-275 | a file goes to its place under the target, the binary to its own name |
| `UpdateTree.UpdaterIsSafe` | Telegram/SourceFiles/_other/updater_linux.cpp:265-275 | in a clean update a file that is copied falls on the updater exactly if it is the binary, is renamed, and its new name is that of the updater |
| `UpdateTree.UpdaterIsOverwritten` | Telegram/SourceFiles/_other/updater_linux.cpp:265-275 | a clean update with a binary that is to be called as the updater is overwrites the updater: the test comes before the renaming |
| `UpdateTree.FilesSplit` | Telegram/SourceFiles/_other/updater_linux.cpp:252-285 | the files of a directory are its own and those of its directories |
| `UpdateTree.WalkEnds` | Telegram/SourceFiles/_other/updater_linux.cpp:237-290 | the queue walk ends, with all files and all directories, or stops because some directory does not open or some file is the updater |
| `UpdateTree.PopQueued` | Telegram/SourceFiles/_other/updater_linux.cpp:241-246 | when a directory is listed its parent is the target or was listed before, so making them in order needs no recursion |
| `UpdateTree.ReadDir` | Telegram/SourceFiles/_other/updater_linux.cpp:252-288 | the inner loop over one directory |
| `UpdateTree.FindTarget` | Telegram/SourceFiles/_other/updater_linux.cpp:265-275 | where a file goes: not onto the updater, and the binary under its own name |
| `UpdateTree.Walk` | Telegram/SourceFiles/_other/updater_win.cpp:171-238 | the loop over the queue: the copy list, the targets and the forced directories, or nothing |
| `UpdateTree.Update` | Telegram/SourceFiles/_other/updater_linux.cpp:216-341 | nothing is made or copied unless every directory opens and no file has the name of the updater; otherwise exactly the directories and files of the update but those in `tdata` and the ready file, each to its place |
| `UpdateTree.TargetsAt` | Telegram/SourceFiles/_other/updater_linux.cpp:265-275 | each copy goes where its file belongs |
| `UpdateTree.ParentsExactly` | Telegram/SourceFiles/_other/updater_linux.cpp:175-195 | the parts of a path that end before a separator, but for doubled ones |
| `UpdateTree.MkPath` | Telegram/SourceFiles/_other/updater_linux.cpp:175-195 | those parts and the path are made one after the other, and what is made are just the ones before the first that cannot be made; the copy of the path is put right after each cut |
| `PageCache.ShowKeeps` | Telegram/Resources/iv_html/page.js:531-612 | showing a page keeps every DOM right or marked and clears what was pending |
| `PageCache.NavigateKeepsInv` | Telegram/Resources/iv_html/page.js:396-409 | going to a page keeps the invariant in any state of its cache |
| `PageCache.NavigateExactly` | Telegram/Resources/iv_html/page.js:396-409 | a page that has an element or content is on screen at once, and exactly then; another one is loaded, unless it is already, and waited for |
| `PageCache.NavigatedHistory` | Telegram/Resources/iv_html/page.js:502-520 | going to another page adds a visit after the current one and drops those that came after it |
| `PageCache.AnsweredExactly` | Telegram/Resources/iv_html/page.js:458-474 | loaded content is kept, and its page comes on screen exactly if it is waited for |
| `PageCache.ReloadedExactly` | Telegram/Resources/iv_html/page.js:475-481 | a reload starts a load or waits for the one on its way, and changes nothing else |
| `PageCache.PoppedExactly` | Telegram/Resources/iv_html/page.js:654-658 | a move through the history shows the page it leads to |
| `PageCache.ArriveKeeps` | Telegram/Resources/iv_html/page.js:459-462 | loaded content is put on screen, or the DOM is marked as outdated |
| `PageCache.RunShowsLatest` | Telegram/Resources/iv_html/page.js:396-612 | in every run the page on screen shows what was last loaded of it, and at most one load per page is on its way |
| `PageCache.RunKeepsInv` | Telegram/Resources/iv_html/page.js:396-612 | the invariant of the cache: every kept DOM is one of its own and shows the latest content or is marked; every page of the history can be shown; a page to go to is being loaded |
| `PageCache.ReloadFollows` | Telegram/Resources/iv_html/page.js:466-481 | a reload asked for during a load starts just one more load right after it |
| `PageCache.LostForever` | Telegram/Resources/iv_html/page.js:458-481 | a load that never comes back blocks its page: however the run goes on, it is not loaded again |
| `PageCache.LoadIsLost` | Telegram/Resources/iv_html/page.js:458-481 | so it is when the first load of a page is not answered |
| `PageCache.OtherStepsKeepPosition` | Telegram/Resources/iv_html/page.js:502-520 | navigation keeps the position the number of steps from the first page |
| `PageCache.PopKeepsPosition` | Telegram/Resources/iv_html/page.js:533-538 | going through the history keeps it exactly if it leads to another page than the one on screen |
| `PageCache.PositionStaysBehind` | Telegram/Resources/iv_html/page.js:533-538 | a run in which going back to the first visit of the page on screen leaves the position at 2 |
| `PageCache.RunKeepsPosition` | Telegram/Resources/iv_html/page.js:502-538 | so it is right in every run where that holds of each such move |
| `PageCache.OneStepKeepsPosition` | Telegram/Resources/iv_html/page.js:654-658 | which it always does for single steps |
| `PageCache.IV.NavigateTo` | Telegram/Resources/iv_html/page.js:396-409 | the branches make the step of the model: the page is on screen, or waited for |
| `PageCache.IV.ApplyUpdatedContent` | Telegram/Resources/iv_html/page.js:410-451 | the visible element shows the content, or the page is marked |
| `PageCache.IV.LoadPage` | Telegram/Resources/iv_html/page.js:452-474 | an entry that is loading |
| `PageCache.IV.OnLoad` | Telegram/Resources/iv_html/page.js:459-470 | the handler of loaded content |
| `PageCache.IV.ReloadPage` | Telegram/Resources/iv_html/page.js:475-481 | a reload now, or after the load on its way |
| `PageCache.IV.NavigateToLoaded` | Telegram/Resources/iv_html/page.js:491-501 | content becomes a new element once |
| `PageCache.IV.NavigateToDOM` | Telegram/Resources/iv_html/page.js:502-520 | the history gets one more visit |
| `PageCache.IV.ShowDOM` | Telegram/Resources/iv_html/page.js:531-612 | the element on screen is kept and the other one shown |
| `PageCache.IV.PopState` | Telegram/Resources/iv_html/page.js:654-658 | the handler of a move through the history; the element is always there |
| `BlockedPeers.RunKeepsInv` | Telegram/SourceFiles/api/api_blocked_peers.cpp:75-187 | over any calls and replies every entry has its own request on the way, and the total covers the list |
| `BlockedPeers.CallExactly` | Telegram/SourceFiles/api/api_blocked_peers.cpp:75-187 | a call asks only if it has to, joins the same call, and takes the place of the opposite one |
| `BlockedPeers.ReplyExactly` | Telegram/SourceFiles/api/api_blocked_peers.cpp:131-158 | a good answer makes the peer blocked or not, in the set and in the list; a bad one changes neither |
| `BlockedPeers.ListExactly` | Telegram/SourceFiles/api/api_blocked_peers.cpp:189-198 | one list is asked for at a time, and a received one takes the place of the known one if it was asked for that |
| `BlockedPeers.WithoutExactly` | Telegram/SourceFiles/api/api_blocked_peers.cpp:135-141 | unblocking takes just the first item of the peer out of the list |
| `BlockedPeers.RunKeepsCallbacks` | Telegram/SourceFiles/api/api_blocked_peers.cpp:116-187 | over any run every callback was called or waits, once, in the order they were given |
| `BlockedPeers.StaysMatched` | Telegram/SourceFiles/api/api_blocked_peers.cpp:168-187 | requests and entries stay matched exactly until an opposite call comes while an entry is there |
| `BlockedPeers.RunIsMatched` | Telegram/SourceFiles/api/api_blocked_peers.cpp:168-187 | so they are matched in every run without such calls |
| `BlockedPeers.ReplyIsHeard` | Telegram/SourceFiles/api/api_blocked_peers.cpp:131-158 | then a reply calls just what waited for that request, and tells whether it succeeded |
| `BlockedPeers.WrongReplyIsHeard` | Telegram/SourceFiles/api/api_blocked_peers.cpp:87-101 | after an opposite call a callback is told of a failure although its own request succeeds |
| `BlockedPeers.BlockedPeers.BlockAlreadySent` | Telegram/SourceFiles/api/api_blocked_peers.cpp:168-187 | the same call is joined, the opposite one gives way and its callbacks are called |
| `BlockedPeers.BlockedPeers.BlockPeer` | Telegram/SourceFiles/api/api_blocked_peers.cpp:75-114 | the step of the model |
| `BlockedPeers.BlockedPeers.UnblockPeer` | Telegram/SourceFiles/api/api_blocked_peers.cpp:116-166 | the step of the model; without force a peer that is not blocked drops the callback |
| `BlockedPeers.BlockedPeers.RequestDone` | Telegram/SourceFiles/api/api_blocked_peers.cpp:131-151 | the handlers of success |
| `BlockedPeers.BlockedPeers.RequestFailed` | Telegram/SourceFiles/api/api_blocked_peers.cpp:152-158 | the handlers of failure |
| `BlockedPeers.BlockedPeers.EraseFirst` | Telegram/SourceFiles/api/api_blocked_peers.cpp:135-141 | the first item of the peer is erased |
| `BlockedPeers.BlockedPeers.Reload` | Telegram/SourceFiles/api/api_blocked_peers.cpp:189-192 | at most one list is asked for at a time |
| `BlockedPeers.BlockedPeers.GotList` | Telegram/SourceFiles/api/api_blocked_peers.cpp:193-198 | a received list |
| `PluginManager.RunCounts` | plugins/opengram_plugins/manager.py:189-194 | over any run the failure count of a loaded plugin is the number of times it raised, never exceeds the limit, and reaches it exactly if the plugin is disabled; a limit below 1 acts as 1 |
| `PluginManager.DispatchCalls` | plugins/opengram_plugins/manager.py:53-57 | an event calls exactly the plugins that were not disabled before it, in order, whoever raises |
| `PluginManager.ReceiversExactly` | plugins/opengram_plugins/manager.py:144-150 | which plugins those are |
| `PluginManager.MessageHeard` | plugins/opengram_plugins/manager.py:53-57 | a message and an outgoing message reach just the plugins that are not disabled and have the hook, each once, in order, whoever raises |
| `PluginManager.LoadedExactly` | plugins/opengram_plugins/manager.py:41-51 | a plugin is there after loading exactly if its `on_load` did not raise |
| `PluginManager.LoadedInTurn` | plugins/opengram_plugins/manager.py:41-51 | files are loaded one after the other |
| `PluginManager.ReloadedExactly` | plugins/opengram_plugins/manager.py:165-170 | a reload unloads all, forgets all failures and loads the files anew |
| `PluginManager.DisabledHearsNothing` | plugins/opengram_plugins/manager.py:53-57 | a disabled plugin is called no more, whatever happens, until plugins are unloaded |
| `PluginManager.UnloadCalls` | plugins/opengram_plugins/manager.py:161-163 | unloading calls every plugin once, the last one first, disabled or not |
| `PluginManager.PluginManager.SafeCall` | plugins/opengram_plugins/manager.py:172-187 | a call that raises is noted and tells so |
| `PluginManager.PluginManager.NoteFailureOf` | plugins/opengram_plugins/manager.py:189-194 | one failure more, and the plugin disabled at the limit |
| `PluginManager.PluginManager.LoadAll` | plugins/opengram_plugins/manager.py:41-51 | a plugin whose `on_load` raises is not added but its failure counts |
| `PluginManager.PluginManager.DispatchMessage` | plugins/opengram_plugins/manager.py:53-57 | the loop makes the step of the model |
| `PluginManager.PluginManager.DispatchOutgoingMessage` | plugins/opengram_plugins/manager.py:144-159 | the message goes out exactly if neither a handler nor a plugin that was called without raising wants it cancelled |
| `PluginManager.PluginManager.UnloadAll` | plugins/opengram_plugins/manager.py:161-163 | the loop that pops plugins |
| `PluginManager.PluginManager.ReloadAll` | plugins/opengram_plugins/manager.py:165-170 | all plugins anew, with no failures |

## Left out

- SHA-1 of 2^32 - 64 bytes or more: `block + 64` wraps around in 32 bits and the loop over blocks does not end, so `Sha1.HashSha1` requires less.
- `packer.cpp`: the file list, compression, signing and writing of the package.
- `api_hash`: the overloads for narrower integers convert their value first; `CountFeaturedHash` and the hashes over recent and faved documents are the same fold over other lists.
- morphdom: keyed nodes, form elements, attributes with a namespace, text nodes of other kinds and the callbacks that change nodes. Of the callbacks of `page.js` only skipping equal elements is modelled; elements it keeps on purpose (equal videos and channels) stay as they are. A root of a kind other than element, text and comment is not morphed.
- `saveStickerSets`: the ids of the requests that clear recent stickers, the flags that tell what to write, and writing it.
- Sticker sets, message data, web pages and dialogs: the parsing of server data, and everything the session does with it.
- `InviteLinks`: the tables of callbacks, the update events, deleting links, and links of other admins; none of these changes a cached slice. Only the first slice of a peer is cached.
- Dialog lists: what applying a page asks for while its answer is handled counts as asked for after it; contacts and shortcuts are not modelled. What the chat filters want is an input.
- `resolveMessageDatas`: the order of channels is that of their addresses and is an input. Callbacks that ask for data again count as asking after the call.
- Web pages: the timer, and clearing pages as methods; both ways of clearing are steps of the model. The order of pages and channels is that of their addresses.
- Forwarding: flags, replies, drafts and the making of local messages; a product of price and count beyond 32 bits is not cut off.
- Albums: entities and trimming of captions, stars, the stories and edits of single files. Every message is uploaded once, as the uploader does.
- Updaters: reading and writing files, versions and the registry; every directory can be made and every file copied. On Windows a directory that is not there ends the update without an error, and other errors of listing end it; both are directories that do not open here. Links in the update are followed as the tree shows them.
- `page.js`: hashes, scrolling, focus, animations and media. Content is always well-formed. `back` and the classes it sets follow from the positions.
- `BlockedPeers`: the stream of changes, lists for other pages (they only hold up a reload), and callbacks that call in again.
- Plugins: the host, the mock objects and the files; a plugin that calls the manager from a hook.
- InviteLinks.StepKeepsInv: holds if the server keeps to three rules, because the code takes links as they come: a link keeps its text and its permanence, does not come back from being revoked, and a slice has at most one active permanent link. `InviteLinks.EditKeepsFirst`, `InviteLinks.UpdateKeepsFirst` and `InviteLinks.MergeKeepsFirst` say exactly what breaks the order otherwise.
- Sha1.HashSha1: gives the standard digest only under 2^29 bytes, because the code writes only the low word of the bit length; `Sha1.PaddingAgrees` says that this bound is exact for the padding.
