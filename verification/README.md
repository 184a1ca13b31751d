# Verified models of the chat and studio protocols

A Dafny model of the parts of the character-chat starter kit that are hard to get right: the
protocols between browser tabs and the server, the documents of the creator studio, and a few
dense server pieces. Each part is modelled in the form its source has. Code that changes state
step by step is a class or a method with loops, proved against a specification function; the
theorems are then about those functions, over every input, every run or every reachable state.

Run `dafny verify dfyconfig.toml` to check everything.

## What is modelled

| Part | Files |
|---|---|
| The chat server as a timeline of message lists that grow, are edited and are rewound; the incremental history cache that must agree with it; the session that fences late reads | ChatServer, ChatHistory, ChatAgreement, ChatSession, ChatReset, ChatRows |
| The studio workspace: works, originals, linked copies and a trash bin, and what its reader accepts | Rows, StudioProject, StudioWorkspace, WorkspaceInvariant, WorkspaceTrash, WorkspaceImports, WorkspaceRuns, WorkspaceReturns, WorkspaceRestores, WorkspaceRemovals |
| Publishing a studio revision: write-once receipts, rows reconciled onto stable server ids, adoption of old publications | StudioPublication, PublicationRuns, PublicationAdoption, PublicationSaves, PublicationEffects |
| The canonical text by which the client compares documents | CanonicalJson, CanonicalEquality, CanonicalText, StudioSerialized |
| Saving works to the server: compare-and-swap drafts, links and resumable uploads, with lost answers and other devices | StudioServer, StudioServerRuns, StudioServerLinks, StudioServerSaves |
| Refreshing an admin session from many tabs without presenting a rotated token again | AdminSession, AdminSessionRuns, AdminRefreshes |
| A ZIP writer with its table-driven CRC, the polynomial division behind it, and a reader that checks it | Crc32, Gf2, CrcPolynomial, ZipWriter, ZipReader, ZipValues |
| Retrying a chat submission | AnswerRetry, AnswerRetryRuns, AnswerRounds |
| Saving the workspace from many tabs | DraftStorage |
| Cursor pages, closing an asset once, nested transactions, daily statistics | Pagination, AssetClose, Transaction, Statistics |

Safety alone is met by code that never does anything, so the protocols also have their other half:
when a save, a refresh, a publication or a submission goes through, in both directions.

Some properties do not hold without a condition. The model keeps the code as it is, gives a run
that shows the failure, and proves when the property does hold:

- A history page is read in two statements, the revision and then the rows. A rewind between them
  leaves a dropped row in the cache (`ChatAgreement.SplitPageKeepsDroppedRow`); agreement holds
  unless that happens on the very last page.
- A save confirmed while the very first history is still being read is not kept: append finds no
  history, returns nothing and fences nothing, so the read may publish a list without it
  (`ChatSession.EarlySaveIsMissed`). `ChatSession.SaveKeptIff` says exactly which saves are kept, and
  `ChatSession.ReadFencedIff` exactly what fences a read.
- A save that the server rewound before the cache was re-read, but that is delivered after it,
  stays in the cache (`ChatSession.LateAppendSurvives`). Appends keep the cache exact exactly when
  they are timely (`ChatSession.AppendClean`); a save confirmed after the cached read ended always
  is (`ChatSession.PromptIsTimely`). A sync with reset is exact whatever the cache holds
  (`ChatReset.ResetSyncIsExact`) and drops the late row (`ChatReset.ResetDropsLateRow`).
- Importing a server draft or an original whose id sits in the trash, and then restoring it, makes
  a workspace its own reader rejects (`WorkspaceImports.ImportOverTrashBreaks`,
  `WorkspaceImports.ReimportBreaks`); so does a listing that gives two drafts one id
  (`WorkspaceImports.ShiftedListingBreaks`). Imports keep the invariant exactly when what they add
  has distinct ids clear of the trash (`WorkspaceImports.ImportWorksIff`,
  `WorkspaceImports.ImportOriginalsIff`).
- An original's round trip through the trash cuts the links of its copies, and loses nothing
  exactly when there are none (`WorkspaceReturns.CharacterLosesNothingIff`).
- Restoring a scene brings its default role back except when other scenes had remained
  (`WorkspaceReturns.SceneReturns`).
- Listing server drafts can move a work's link to another product, for example when two browsers
  each migrated the same old draft, and a save that was running can move it back
  (`StudioServerLinks.ListingCanMove`, `StudioServerLinks.SaveCanMoveBack`). Links keep their
  products along a run exactly when no listing moves one (`StudioServerLinks.EveryRunFixedIff`).
- Adopting an old publication can give two rows one entry (`PublicationAdoption.AdoptionCanMerge`,
  `PublicationAdoption.AdoptedIsBoundIff`).
- Logging out clears the shared flag after letting go of the lock, and a rotated token can be sent
  again (`AdminSessionRuns.LateClearPresentsAgain`). `AdminSessionRuns.LateClearIff` says, in terms
  of what the tabs did under the lock, exactly when the late clear is safe.
- An archive reads back exactly when its numbers fit their fields (`ZipReader.ReadsBackIff`), and
  pages are complete exactly when the cap allows a row per page (`Pagination.FixedWalkIff`).

## Model

| member | source | states |
|---|---|---|
| ChatServer.AlwaysValid | apps/api/app/modules/chatting/chat/service/command/messages.py:106-156 | at every time the server's messages have distinct ids and strictly increasing positions up to its clock |
| ChatServer.HeldThroughout | apps/api/app/modules/chatting/chat/service/command/messages.py:237-262 | a row held at two times under one revision, or by its last holder, is the same row all the time between |
| ChatServer.AfterIsSuffix | apps/api/app/modules/chatting/chat/service/query/messages.py:14-44 | the rows behind a cursor are exactly a tail of the ordered list |
| ChatHistory.AbsorbEach | apps/web/lib/chat-history.ts:42-50 | the loop over one page's messages computes the specified merge, or stops with the specified error |
| ChatHistory.ReadHistory | apps/web/lib/chat-history.ts:24-60 | the page loop ends, by the cursors not yet seen, with the specified outcome and request count |
| ChatHistory.ReadConversationHistory | apps/web/lib/chat-history.ts:62-71 | one restart with an empty cache, only after an observed destructive change |
| ChatAgreement.ReadIsComplete | apps/web/lib/chat-history.ts:24-60 | whatever changes between pages, a finished read misses no row the server held at its last page read |
| ChatAgreement.ReadIsExact | apps/web/lib/chat-history.ts:24-60 | from a cache without dropped rows, the result equals the server's full ordered list at the last page read exactly when that page saw one revision |
| ChatAgreement.ConversationReadAgrees | apps/web/lib/chat-history.ts:24-71 | both for the incremental read and for its restart: complete always, and from a clean cache equal to the server's list exactly when the last page saw one revision |
| ChatAgreement.IncrementalExactIff | apps/web/lib/chat-history.ts:24-60 | an incremental read that does not restart is exact if and only if its last page saw one revision and the cache it read on from held no dropped row |
| ChatAgreement.ReadIsJustified | apps/web/lib/chat-history.ts:34-57 | with atomic pages a read restarts exactly when the server's revision moved, and fails only when a request was lost |
| ChatAgreement.BoundedServerEnds | apps/web/lib/chat-history.ts:55-58 | a conversation that stops growing offers finitely many cursors, so the loop's measure exists |
| ChatAgreement.SplitPageKeepsDroppedRow | apps/web/lib/chat-history.ts:34-41 | a concrete server and read where a rewind falls inside the last page read and a dropped row is returned |
| ChatSession.ConversationHistorySession.Dispose | apps/web/lib/chat-history.ts:84 | the new state of the session after disposal |
| ChatSession.ConversationHistorySession.BeginSync | apps/web/lib/chat-history.ts:86-95 | a sync takes a new version and the cache it reads on from, or nothing after disposal |
| ChatSession.ConversationHistorySession.FinishSync | apps/web/lib/chat-history.ts:96-101 | a finished read publishes only under its own version in a live session |
| ChatSession.ConversationHistorySession.Append | apps/web/lib/chat-history.ts:108-120 | a confirmed save is merged, takes a new version, and forgets the revision when it changes a known row |
| ChatSession.EveryPublishedHistory | apps/web/lib/chat-history.ts:74-121 | over every run of syncs, appends, disposal and late completions, each published history is ordered, unique and holds every confirmed save the server still holds, except those for which append found no history while the first read was in flight and no later read has published; with timely appends, or with saves confirmed after the cached read ended, a read publishes the server's list exactly when its last page saw one revision |
| ChatSession.SaveKeptIff | apps/web/lib/chat-history.ts:108-121 | a confirmed save is in every later history if and only if append found a history, or no read of a live session was in flight, or that read began after the save was made, or the server dropped it |
| ChatSession.EarlySaveIsMissed | apps/web/lib/chat-history.ts:109 | a concrete run: a save confirmed while the first read is in flight is in no published history |
| ChatSession.AppendClean | apps/web/lib/chat-history.ts:108-120 | appending keeps the cache free of dropped rows exactly when the save is timely: not dropped by the server before the cache's own revision |
| ChatSession.PromptIsTimely | apps/web/lib/chat-history.ts:108-120 | by event order alone: a save confirmed after the read behind the cache ended is timely |
| ChatSession.StepKeepsClean | apps/web/lib/chat-history.ts:74-121 | of all steps, exactly an untimely append brings a dropped row into the cache |
| ChatSession.ReadFencedIff | apps/web/lib/chat-history.ts:84-121 | of all events exactly a sync, a disposal and an append that found a history stop a read in flight from ever handing anything to the page |
| ChatSession.LateAppendSurvives | apps/web/lib/chat-history.ts:108-120 | a concrete run: a save confirmed before a rewind and delivered after the first read is still shown by the next incremental read |
| ChatSession.IncrementalPublicationIff | apps/web/lib/chat-history.ts:86-101 | in every run an incremental read without a restart publishes the server's list if and only if its last page saw one revision and its cache held no dropped row |
| ChatReset.ResetSyncIsExact | apps/web/lib/chat-history.ts:86-101 | from every world, whatever its cache holds: a read begun with reset that publishes, after any events in between, shows the server's list exactly when its last page saw one revision, and no dropped row |
| ChatReset.ResetDropsLateRow | apps/web/lib/chat-history.ts:95 | the run of the late append, ended by a reset sync: the cache still has the dropped row and the published list no longer has it |
| ChatReset.SyncIsExactIff | apps/web/lib/chat-history.ts:86-101 | a read begun without reset goes on from the cache as it was then: without a restart it is exact if and only if its last page saw one revision and that cache held no dropped row |
| ChatReset.StillServerIsRead | apps/web/lib/chat-history.ts:62-72 | however far a cache of rows the server still has lies behind, reading on from it gives the server's list, over the one restart if the revision moved |
| ChatReset.DisposedIsSilent | apps/web/lib/chat-history.ts:84-110 | after a disposal nothing is handed to the page any more, whatever happens |
| ChatReset.AppendTakesIff | apps/web/lib/chat-history.ts:108-121 | of all rows handed to append exactly those of the room reach a history that has been read, and the checkpoint stays; every other append changes nothing |
| ChatRows.FreshReadIff | apps/web/lib/chat-history.ts:24-60 | whatever any server answers: a read from nothing publishes if and only if all rows belong to the room, the pages agree on a revision, each page with rows has its checkpoint and none points back; it keeps of each id the row with the highest revision, the last one on a tie |
| ChatRows.OngoingReadIff | apps/web/lib/chat-history.ts:24-60 | the same for a read that goes on from a cache: additionally every page carries the cache's revision and no row differs from a cached or earlier row of its id |
| ChatRows.MergeKeepsNewest | apps/web/lib/chat-history.ts:15-22 | merging a row keeps of each id the newer row, the incoming one on a tie, in order of position |
| ChatRows.SortedIsStable | apps/web/lib/chat-history.ts:59 | rows of one position stay in the order they were given in |
| ChatRows.SpellingsShareKey | apps/web/lib/chat-history.ts:12-13 | an id, its URN, its capitals and it with a hyphen or brace anywhere are one conversation |
| StudioProject.ReadLoreDraft | apps/web/lib/studio-data.ts:63-86 | a lore list is accepted exactly when it is nonempty, its ids are nonempty and distinct and every row is in range |
| StudioProject.RepairValid | apps/web/lib/studio-workspace.ts:61-63 | repairing a document with valid rows makes all its references resolve |
| StudioProject.RepairIdentity | apps/web/lib/studio-workspace.ts:61-63 | repair changes nothing in a valid document |
| StudioProject.RepairIdempotent | apps/web/lib/studio-workspace.ts:61-63 | repairing twice is repairing once, for every document |
| StudioProject.OnePortraitIff | apps/web/lib/studio-project.ts:53-58 | a character's images are accepted exactly when their ids are nonempty and distinct and at most one is the portrait |
| WorkspaceInvariant.EditKeeps | apps/web/lib/studio-workspace.ts:64-66 | a good edit of one work keeps the workspace accepted and every id position in one place |
| WorkspaceInvariant.AddWorkKeeps | apps/web/components/studio/creator-studio.tsx:116 | a workspace with a new work is accepted, and keeps the invariant exactly when none of the work's id positions is held in the trash |
| WorkspaceInvariant.LinkCharacterKeeps | apps/web/lib/studio-workspace.ts:67-72 | linking an original character under a new id keeps the invariant |
| WorkspaceInvariant.LinkLoreKeeps | apps/web/lib/studio-workspace.ts:67-72 | linking an original lore entry under a new id keeps the invariant |
| WorkspaceTrash.TrashKeeps | apps/web/lib/studio-workspace.ts:73-89 | trashing anything, of any kind, keeps the invariant, including rows inside trashed works |
| WorkspaceTrash.RestoreKeeps | apps/web/lib/studio-workspace.ts:91-105 | restoring any entry keeps the invariant: no restored id meets one in use |
| WorkspaceRuns.EveryReachableWorkspace | apps/web/lib/studio-workspace.ts:19-105 | from nothing or a migrated draft, every workspace reached by creating, linking, editing, trashing, restoring and clear imports is accepted by its reader, and no id position is filled twice |
| WorkspaceImports.SampleIsValid | apps/web/lib/studio-project.ts:22-40 | the sample work around an accepted lore list is a valid document |
| WorkspaceImports.ImportKeepsIff | apps/web/components/studio/creator-studio.tsx:79-84 | an opened server draft is accepted, and keeps the invariant exactly when it is clear of the trash |
| WorkspaceImports.ImportWorksIff | apps/web/components/studio/creator-studio.tsx:165-168 | a whole listing is accepted exactly when the works it adds have distinct ids, and keeps the invariant exactly when they are also clear of the trash |
| WorkspaceImports.ListedIdsDistinctIff | apps/web/lib/studio-server.ts:124-125 | a listing gives every draft its own id exactly when no draft finds both of its possible ids given away |
| WorkspaceImports.ShiftedListingBreaks | apps/web/lib/studio-server.ts:111-133 | a product listed on two pages, without a work id in its draft, makes a listing whose import the reader rejects |
| WorkspaceImports.ImportOriginalsIff | apps/web/components/studio/creator-studio.tsx:177-182 | importing originals is accepted exactly when the new ones are distinct and in range, and keeps the invariant exactly when they are also clear of the trash |
| WorkspaceImports.CharacterImportBreaks | apps/web/components/studio/creator-studio.tsx:177-182 | for every trashed original character: importing its id and restoring it gives a workspace the reader rejects |
| WorkspaceImports.LoreImportBreaks | apps/web/components/studio/creator-studio.tsx:177-182 | the same for every trashed original lore entry |
| WorkspaceImports.ReimportBreaks | apps/web/components/studio/creator-studio.tsx:177-182 | in one browser, for every original: importing, trashing, importing again and restoring it is rejected |
| WorkspaceImports.ImportOverTrashBreaks | apps/web/components/studio/creator-studio.tsx:165-168 | for every trashed work: importing its id and restoring it gives a workspace the reader rejects |
| WorkspaceImports.AdditionsAre | apps/web/components/studio/creator-studio.tsx:165-182 | of the listed rows exactly those whose id is not in use are added |
| WorkspaceReturns.WorkReturns | apps/web/lib/studio-workspace.ts:73-105 | trashing and restoring a work gives the same workspace with that work last |
| WorkspaceReturns.CharacterReturns | apps/web/lib/studio-workspace.ts:73-105 | trashing and restoring an original character moves it last; copies that were linked stay unlinked |
| WorkspaceReturns.LoreReturns | apps/web/lib/studio-workspace.ts:73-105 | the same for an original lore entry |
| WorkspaceReturns.CharacterLosesNothingIff | apps/web/lib/studio-workspace.ts:82-86 | an original character's round trip changes no work and no trash entry if and only if no copy is linked to it |
| WorkspaceReturns.LoreLosesNothingIff | apps/web/lib/studio-workspace.ts:82-86 | the same for an original lore entry |
| WorkspaceReturns.WorkCharacterReturns | apps/web/lib/studio-workspace.ts:73-105 | a work's character comes back last with its scene links re-established |
| WorkspaceReturns.WorkLoreReturns | apps/web/lib/studio-workspace.ts:73-105 | a work's lore entry comes back last with its place links re-established |
| WorkspaceReturns.SceneReturns | apps/web/lib/studio-workspace.ts:73-105 | a scene comes back last; its default role is lost exactly when it was the default and other scenes had remained |
| WorkspaceRestores.WorkCharacterRestored | apps/web/lib/studio-workspace.ts:91-104 | for every accepted workspace and entry, however old: restoring a work's character changes exactly the listed scenes of that work that name nobody, appends the row, and changes no other scene, work or original |
| WorkspaceRestores.WorkLoreRestored | apps/web/lib/studio-workspace.ts:91-104 | the same for a work's lore entry and the places of scenes, if it still is a place |
| WorkspaceRestores.SceneRestored | apps/web/lib/studio-workspace.ts:99-101 | a restored scene takes the default role only from nobody, keeps what still exists of its cast and place, and changes no other scene |
| WorkspaceRestores.WholeRestored | apps/web/lib/studio-workspace.ts:96-98 | a work comes back last with all its scenes, and of its rows exactly those lose their link whose original is gone; an original comes back last, linked to nothing |
| WorkspaceRestores.RestoreDoesNothingIff | apps/web/lib/studio-workspace.ts:91-93 | a restore changes nothing, not even the trash, exactly when there is no such entry or it is a part of a work that is gone |
| WorkspaceRestores.CharacterLinked | apps/web/lib/studio-workspace.ts:67-72 | linking appends to that one work a copy of the original under the new id that names its source, and changes nothing else |
| WorkspaceRestores.LoreLinked | apps/web/lib/studio-workspace.ts:67-72 | the same for a lore entry |
| WorkspaceRemovals.WorkCharacterTrashed | apps/web/lib/studio-workspace.ts:73-88 | trashing a work's character empties exactly the scenes that showed it, and the entry notes the row, its name, the work and exactly those scenes |
| WorkspaceRemovals.WorkLoreTrashed | apps/web/lib/studio-workspace.ts:73-88 | the same for a work's lore entry |
| WorkspaceRemovals.SceneTrashed | apps/web/lib/studio-workspace.ts:73-88 | a trashed default scene hands its role to the first scene left, and the entry notes that it had it |
| WorkspaceRemovals.WorkTrashed | apps/web/lib/studio-workspace.ts:73-81 | a trashed work leaves the list, and its entry holds it whole under its title |
| WorkspaceRemovals.CharacterTrashed | apps/web/lib/studio-workspace.ts:82-86 | trashing an original cuts the links of exactly its copies, in live works and in trashed ones |
| WorkspaceRemovals.LoreTrashed | apps/web/lib/studio-workspace.ts:82-86 | the same for an original lore entry |
| StudioPublication.ProductStudio.PutCharacters | apps/api/app/use_cases/studio_publication.py:354-391 | the character loop computes the specified copies and ids |
| StudioPublication.ProductStudio.PutEntries | apps/api/app/use_cases/studio_publication.py:473-487 | the entry loop computes the specified next mapping and entries |
| StudioPublication.ProductStudio.DeleteEntries | apps/api/app/use_cases/studio_publication.py:522-529 | deleting dropped entries one by one succeeds exactly when each exists, differs and starts nothing, and then removes just those |
| StudioPublication.ProductStudio.Save | apps/api/app/use_cases/studio_components.py:127-156 | adoption before a change, then compare-and-swap; the whole new state and result |
| StudioPublication.ProductStudio.Prepare | apps/api/app/use_cases/studio_components.py:159-204 | copies for new characters only; the whole new state and result |
| StudioPublication.ProductStudio.StockBook | apps/api/app/use_cases/studio_publication.py:473-530 | placing, start settings and deletion together compute the specified stock |
| StudioPublication.ProductStudio.Reconcile | apps/api/app/use_cases/studio_publication.py:350-530 | the domain writes happen completely or not at all |
| StudioPublication.ProductStudio.Record | apps/api/app/use_cases/studio_publication.py:189-216 | the receipt is written under the request's revision beside its release |
| StudioPublication.ProductStudio.Publish | apps/api/app/use_cases/studio_publication.py:219-560 | one publication as one transaction: replay, conflict, no-op release or reconciliation |
| PublicationRuns.PublishedForever | apps/api/app/use_cases/studio_publication.py:235-291 | once revision r was published, after any saves, preparations and publications the same request returns the same release and changes nothing, and other parameters for r conflict |
| PublicationRuns.RunGrows | apps/api/app/use_cases/studio_publication.py:189-216 | over every run receipts are write-once, snapshots are only added and revisions only grow |
| PublicationRuns.ReleasesStayHonest | apps/api/app/use_cases/studio_publication.py:264-291 | in every reachable state a receipt's snapshot holds the model settings its request asked for |
| PublicationRuns.StockedWell | apps/api/app/use_cases/studio_publication.py:293-314 | the reconciled book: mapping a bijection, keys exactly the document's, surviving keys keep their id, entries hold their rows, dropped ones are gone, starts list each scene once with the default first |
| PublicationRuns.ReconciledWell | apps/api/app/use_cases/studio_publication.py:350-530 | a whole reconciliation succeeds under the invariant, keeps it, and lists each character's own copy with its profile in document order |
| PublicationRuns.PlaceCharactersWorks | apps/api/app/use_cases/studio_publication.py:354-391 | every character ends with its own copy holding its profile, and no other row's copy is touched |
| PublicationRuns.PublishSucceedsIff | apps/api/app/use_cases/studio_publication.py:219-291 | under the invariant a request succeeds exactly when it replays its receipt, or names the current revision with a valid note and is unchanged or publishable and accepted |
| PublicationRuns.MappingStaysBijective | apps/api/app/use_cases/studio_publication.py:473-530 | from a new product every run keeps the entry mapping a bijection onto the book |
| PublicationSaves.SaveSucceedsIff | apps/api/app/modules/content/product/service/command/studio.py:98-131 | for every state and document: a save that changes the document succeeds if and only if the request is well formed and accepted, any adoption works, and it names the draft's revision, none for no draft; then the document is stored at the next revision, otherwise nothing changes and a good request conflicts |
| PublicationSaves.AtMostOneSave | apps/api/app/modules/content/product/service/command/studio.py:101-104 | of two saves that name one revision and change the document at most one succeeds, whatever happens between them |
| PublicationSaves.StoredBySave | apps/api/app/modules/content/product/service/command/studio.py:101-131 | in every run of a new product the stored document was saved by a caller that named the revision of the document it replaced, and no event changed it since |
| PublicationSaves.SaveAdopts | apps/api/app/use_cases/studio_components.py:138-155 | a save that names a revision stores the adopted identities of an older publication and keeps its release |
| PublicationSaves.PrepareSucceedsIff | apps/api/app/use_cases/studio_components.py:159-208 | a preparation succeeds exactly for the draft's revision, named characters and a readable mapping; known copies stay, each other row gets a new one, and all else is as it was |
| PublicationSaves.PreparedAgain | apps/api/app/use_cases/studio_components.py:159-208 | a repeated preparation hands out the same copies and makes no others |
| PublicationSaves.CopiesKeepTheirIds | apps/api/app/use_cases/studio_publication.py:354-391 | through every later run a document row keeps the server copy it once got |
| PublicationEffects.PublishedBookIs | apps/api/app/use_cases/studio_publication.py:293-530 | a publication that writes leaves a book with exactly one entry for each lore row, scene and nonblank rule text, each with its content; it is the product's only book, and other books and characters are as they were |
| PublicationEffects.ReleasedAgainIff | apps/api/app/use_cases/studio_publication.py:267-291 | a successful new request makes the next numbered release with its own note, except exactly when document and settings are those of the stored release: then only the receipt is written |
| PublicationEffects.PublishConflictsIff | apps/api/app/use_cases/studio_publication.py:248-266 | a request conflicts exactly with a receipt of other parameters or with another draft revision, and every failure leaves the product as it was |
| PublicationEffects.ReleasesAreNumbered | apps/api/app/use_cases/studio_publication.py:551-560 | over every run each receipt's release carries the number of its snapshot, and only the first is initial |
| PublicationAdoption.AdoptionIs | apps/api/app/use_cases/studio_components.py:112-125 | adoption succeeds exactly when every row has one candidate, and gives each key its candidate |
| PublicationAdoption.AdoptionIsBijectionIff | apps/api/app/use_cases/studio_components.py:106-125 | the adopted mapping is a bijection onto the book exactly when no two rows share title and kind and every entry is some row's |
| PublicationAdoption.AdoptsIff | apps/api/app/use_cases/studio_components.py:51-125 | an old publication can be adopted exactly if it has as many linked characters as rows, one book, and one candidate for every row; a product never released needs nothing |
| PublicationAdoption.AdoptedIsBoundIff | apps/api/app/use_cases/studio_components.py:51-125 | adopting an old publication establishes the publication invariant under exactly that condition |
| PublicationAdoption.AdoptionCanMerge | apps/api/app/use_cases/studio_components.py:112-125 | two rows of one title adopt one entry |
| CanonicalEquality.CanonicalEmits | apps/web/lib/studio-server.ts:12-16 | the canonical text is the text of the value's normal form: sorted keys, no undefined |
| CanonicalEquality.EmitPrefix | apps/web/lib/studio-server.ts:12-16 | a printed value can be read off the front of any text it starts: equal texts mean equal normal forms |
| CanonicalEquality.NormalIffSame | apps/web/lib/studio-server.ts:12-16 | normal forms agree exactly on values that are the same up to key order and undefined fields |
| CanonicalEquality.CanonicalIffSame | apps/web/lib/studio-server.ts:12-16 | two values have one canonical text exactly when they are the same value up to key order and undefined fields |
| CanonicalText.QuotedReadsBack | apps/web/lib/studio-server.ts:12-16 | every printed string reads back by the grammar of section 7 of RFC 8259 |
| CanonicalText.OneText | apps/web/lib/studio-server.ts:12-16 | the whole text of one object: sorted keys, no undefined field, constants as JSON has them |
| StudioSerialized.SameStudioProjectIff | apps/web/lib/studio-server.ts:17-22 | two projects compare equal exactly when they agree on everything but the sources of characters and lore and the media of assets |
| StudioServer.StudioStorage.Open | apps/web/lib/studio-server.ts:36-41 | an existing link is kept; a new product id is stored before anything is sent |
| StudioServer.StudioStorage.Examine | apps/web/lib/studio-server.ts:42-55 | what a draft found on the server means for the save: finished, refused, or a write of a known revision |
| StudioServer.StudioStorage.Fill | apps/web/lib/studio-server.ts:81-88 | one image slot: the server's image, an earlier upload, or a new upload under a stored key |
| StudioServer.StudioStorage.Receive | apps/web/lib/studio-server.ts:92-93 | an upload's media id is stored under its slot and key |
| StudioServer.StudioStorage.List | apps/web/lib/studio-server.ts:124-130 | importing a listed draft writes its link unless a different local copy exists |
| StudioServer.StudioStorage.OpenDraft | apps/web/lib/studio-server.ts:145-147 | opening a server draft writes its link only when there is none |
| StudioServerRuns.StepKeeps | apps/web/lib/studio-server.ts:34-149 | every step of this browser, the server or another device keeps links honest about the server's revisions, requests name revisions whose text was recorded, and upload receipts match the server |
| StudioServerRuns.PutReplacesRecorded | apps/web/lib/studio-server.ts:34-106 | after any run, a draft the server takes from this browser replaces nothing, or a document whose text this browser had recorded as that work's base |
| StudioServerRuns.SavedIsStored | apps/web/lib/studio-server.ts:34-106 | a save that ended well left its text in the server's draft |
| StudioServerRuns.EverySlotHasItsImage | apps/web/lib/studio-server.ts:79-98 | before the final write every image slot shows the server's image for it or its own upload |
| StudioServerRuns.OneUploadKey | apps/web/lib/studio-server.ts:85-93 | after any run a slot of a product was only ever uploaded under one request id |
| StudioServerSaves.SaveEndsUnlessRefused | apps/web/lib/studio-server.ts:34-106 | from every world: a save is refused if and only if the draft is gone though the link has a revision, or cannot be read, or is neither the work nor the link's base; every other save, with any images, ends well if its calls are answered and nobody interferes, its text last in the log, an image in every slot, and the link recorded |
| StudioServerSaves.TextSaveIff | apps/web/lib/studio-server.ts:34-62 | a work without images is saved or refused after its read and its one write; the log grows at most by its document |
| StudioServerSaves.CheckedSaveIff | apps/web/lib/studio-server.ts:42-61 | after the draft is read the save is over, or sends a write that names the revision read, exactly as the log and the link say |
| StudioServerSaves.UnchangedDraftIsReplaced | apps/web/lib/studio-server.ts:57-61 | if nobody wrote the draft since it was read, the server takes the document as the next revision |
| StudioServerSaves.UploadIsReused | apps/web/lib/studio-server.ts:84-96 | once an upload's answer has been handled, after any events every save that comes to a slot with its key takes the image from storage and sends no second upload |
| StudioServerSaves.TakenOverCanBeSaved | apps/web/lib/studio-server.ts:108-149 | a draft opened or listed as it is now can be edited and saved: the save is not refused and goes to its product |
| StudioServerLinks.OneProductPerLink | apps/web/lib/studio-server.ts:34-106 | in runs whose listings move no link, all saves of a work use one product and each slot one key |
| StudioServerLinks.ProductMovesIff | apps/web/lib/studio-server.ts:34-149 | in every state a step changes the product of a link exactly when a listing finds the work's id and text on another product, or a running save of another product writes its own back |
| StudioServerLinks.EveryRunFixedIff | apps/web/lib/studio-server.ts:34-149 | along a run no link ever changes its product if and only if no listing moves one |
| StudioServerLinks.ListingCanMove | apps/web/lib/studio-server.ts:124-130 | a concrete run of one save, another browser's save and a listing that moves the link |
| StudioServerLinks.SaveCanMoveBack | apps/web/lib/studio-server.ts:56-61 | the run goes on: the save that was running takes the link back to its own product |
| AdminSession.UncertainFlag.Admit | apps/admin_web/lib/api.ts:46-49 | a refresh is admitted only after an expired token and with the flag clear, and sets the flag |
| AdminSession.UncertainFlag.Settle | apps/admin_web/lib/api.ts:50-59 | at the end of a locked request the flag is cleared by a definite answer to a refresh or by a successful login |
| AdminSessionRuns.NoRotatedTokenPresented | apps/admin_web/lib/api.ts:40-87 | in every run of closing tabs, server errors, lost or late answers, and logouts that clear the flag late but while no refresh is open, no refresh presents a token that was rotated or is still on its way |
| AdminSessionRuns.RunKeeps | apps/admin_web/lib/api.ts:40-87 | the invariant behind it, kept by every step |
| AdminSessionRuns.LateClearIff | apps/admin_web/lib/api.ts:82-87 | a late clear presents no rotated token, for every server the tabs cannot tell apart, if and only if under the lock every refresh sent has had a definite answer, or a login or logout succeeded since, and none is about to be sent |
| AdminSessionRuns.LateClearPresentsAgain | apps/admin_web/lib/api.ts:82-87 | a concrete run of a logout, a login in another tab, its refresh, and the late clear, after which a rotated token is presented |
| AdminRefreshes.RefreshGoesOnIff | apps/admin_web/lib/api.ts:44-49 | of all answers to who is logged in, exactly an expired token with the flag clear lets a refresh go on; it sets the flag, and every other answer leaves it as it is |
| AdminRefreshes.RefreshEndsIff | apps/admin_web/lib/api.ts:50-60 | an answered refresh lets go of the lock, unless its anti-forgery token is refused for the first time; the flag stays exactly after a server error |
| AdminRefreshes.LoginClearsIff | apps/admin_web/lib/api.ts:73-81 | a login clears the flag exactly if it succeeds |
| AdminRefreshes.LogoutOwesAClear | apps/admin_web/lib/api.ts:82-87 | a logout leaves the flag while it holds the lock, and owes a clear exactly if it succeeded |
| AdminRefreshes.QuietRefresh | apps/admin_web/lib/api.ts:44-62 | an undisturbed refresh rotates the old token, leaves the new one in the jar, where the server takes it, and the flag clear |
| Crc32.TableStep | docs/design/moseori-discovery/ui-review.js:3 | one table entry does the work of eight bit steps |
| Crc32.MakeTable | docs/design/moseori-discovery/ui-review.js:3 | the table holds eight bit steps of every byte |
| Crc32.TableCrc | docs/design/moseori-discovery/ui-review.js:3 | the table-driven sum is the bit-by-bit CRC-32 of section 8 of RFC 1952 |
| CrcPolynomial.CrcIff | docs/design/moseori-discovery/ui-review.js:3 | a number is the checksum of a message if and only if its complement is the remainder over GF(2) of the message, times x to the 32 and with its first 32 coefficients complemented, by the polynomial with exponents 32, 26, 23, 22, 16, 12, 11, 10, 8, 7, 5, 4, 2, 1, 0 |
| CrcPolynomial.CrcIsRemainder | docs/design/moseori-discovery/ui-review.js:3 | the register is that remainder, found by one step of long division per bit |
| Gf2.RemainderIsUnique | docs/design/moseori-discovery/ui-review.js:3 | a division over GF(2) has only one remainder below the divisor's degree |
| ZipValues.CheckValue | docs/design/moseori-discovery/ui-review.js:3 | the published check value: the nine digits sum to 0xcbf43926 |
| ZipValues.LetterSum | docs/design/moseori-discovery/ui-review.js:3 | the one byte 'a' sums to 0xe8b7be43, stored low byte first |
| ZipWriter.View.SetUint16 | docs/design/moseori-discovery/ui-review.js:4 | a little-endian write of 16 bits changes just its two bytes |
| ZipWriter.View.SetUint32 | docs/design/moseori-discovery/ui-review.js:4 | the same for 32 bits |
| ZipWriter.WriteLocal | docs/design/moseori-discovery/ui-review.js:4 | the bytes of a local header, section 4.3.7 of the ZIP APPNOTE |
| ZipWriter.WriteCentral | docs/design/moseori-discovery/ui-review.js:4 | the bytes of a directory header, section 4.3.12 |
| ZipWriter.WriteEnd | docs/design/moseori-discovery/ui-review.js:5 | the bytes of the end record, section 4.3.16 |
| ZipValues.LocalStarts | docs/design/moseori-discovery/ui-review.js:4 | the fixed bytes of every local header, one by one |
| ZipValues.CentralStarts | docs/design/moseori-discovery/ui-review.js:4 | the fixed bytes of every directory header |
| ZipValues.EndStarts | docs/design/moseori-discovery/ui-review.js:5 | the fixed bytes of every end record |
| ZipWriter.MakeZip | docs/design/moseori-discovery/ui-review.js:3-5 | the loop over the entries writes the specified archive, with running offsets |
| ZipReader.ReadsBackIff | docs/design/moseori-discovery/ui-review.js:3-5 | reading from the end record through the directory to the local headers gives the same names and contents, every sum the bitwise CRC-32, exactly when all numbers fit their fields |
| AnswerRetry.ChatPage.Submit | apps/web/app/chats/[id]/page.tsx:224-225 | keys are stored before anything is sent, and only when nothing is pending |
| AnswerRetry.ChatPage.Send | apps/web/app/chats/[id]/page.tsx:166-180 | what the loop sends next, and that it stops after its attempts |
| AnswerRetry.ChatPage.Receive | apps/web/app/chats/[id]/page.tsx:166-197 | what an answer or failure does to the stored value and the loop |
| AnswerRetry.ChatPage.Refresh | apps/web/app/chats/[id]/page.tsx:182-192 | a new answer key only after a retryable unsuccessful outcome; otherwise the submission is forgotten |
| AnswerRetryRuns.OneMessageOneAnswer | apps/web/app/chats/[id]/page.tsx:155-226 | after any run of retries, reloads and lost answers a submission has one user message and at most one answer that succeeded |
| AnswerRetryRuns.KeptUntilKnown | apps/web/app/chats/[id]/page.tsx:155-207 | a submission is only forgotten when its latest answer has ended or a request was refused for good, and only re-keyed after an unsuccessful answer |
| AnswerRounds.TwentyRounds | apps/web/app/chats/[id]/page.tsx:174-200 | while nothing is decided the loop asks with the same keys, twenty times in all: after n undecided answers there is a next request exactly if n is below twenty |
| AnswerRounds.OutcomeLeaves | apps/web/app/chats/[id]/page.tsx:185-192 | after an ended answer nothing stays stored exactly if it succeeded or cannot be retried; otherwise the next loop asks for the same message under a new answer key |
| AnswerRounds.FailureLeaves | apps/web/app/chats/[id]/page.tsx:193-198 | a failed request forgets the submission exactly if it is a final refusal, and the loop goes on exactly while the storage recovers |
| AnswerRounds.TroubleLeaves | apps/web/app/chats/[id]/page.tsx:182-198 | the same when the history cannot be read after the answer: the loop asks again with the same key |
| AnswerRounds.SubmissionIsAnswered | apps/web/app/chats/[id]/page.tsx:155-226 | after any run that left nothing pending a new submission can reach its end: message posted, an answer to it succeeded, nothing pending |
| Pagination.PageIs | apps/api/app/db/pagination.py:40-56 | a page holds rows behind the cursor in order, leaves out only rows behind its last one, and its cursor is that row |
| Pagination.PageIsFull | apps/api/app/db/pagination.py:41-55 | a page is as full as the request and the cap allow unless it takes all that is left, and has a cursor exactly if something is left |
| Pagination.WalkNeverRepeats | apps/api/app/db/pagination.py:28-56 | over changing tables the walk's rows strictly descend, none comes twice, each from a table some page read |
| Pagination.WalkComplete | apps/api/app/db/pagination.py:28-56 | a row present at every read is returned by a walk that ends |
| Pagination.FixedWalk | apps/api/app/db/pagination.py:28-56 | on a fixed table the walk ends and its pages are the table in order |
| Pagination.FixedWalkIff | apps/api/app/db/pagination.py:40-56 | the pages give the whole table exactly when the cap is at least one or the table is empty |
| AssetClose.AssetReadInfo.Arrive | apps/api/app/modules/asset_storage/types.py:188-195 | the first caller starts the close, later ones join, and after it is done nobody waits |
| AssetClose.AssetReadInfo.AwaitClose | apps/api/app/modules/asset_storage/types.py:196-213 | the waiting loop ends with the caller's own cancellation first, then with what the close did |
| AssetClose.AssetReadInfo.Exit | apps/api/app/modules/asset_storage/types.py:218-230 | an error of the block itself comes before anything the close raises |
| AssetClose.OneCloseForAll | apps/api/app/modules/asset_storage/types.py:174-230 | for every order of arriving, cancelling, settling and waking: one physical close, no read after it, every caller that ended found it done, and ended cancelled if it was cancelled while waiting and as the close did if not |
| AssetClose.BlockErrorComesFirst | apps/api/app/modules/asset_storage/types.py:218-230 | a block that raised raises its own error whatever the close does; otherwise the close decides |
| AssetClose.LeavesIffDone | apps/api/app/modules/asset_storage/types.py:196-213 | a waiting caller that wakes leaves if and only if the close is done, and then everyone who waits can wake |
| AssetClose.ReplayLoop | apps/api/app/modules/asset_storage/types.py:196-213 | the waits of every caller that left are a schedule of the waiting loop, which ends for it as the caller did |
| DraftStorage.StudioDraft.constructor | apps/web/components/studio/use-studio-draft.ts:29-50 | what a tab shows and remembers after loading, migrating or failing to read |
| DraftStorage.StudioDraft.Save | apps/web/components/studio/use-studio-draft.ts:18-28 | a save writes only over what the tab last saw, backs up first, and may run out of room at either write |
| DraftStorage.StudioDraft.Sync | apps/web/components/studio/use-studio-draft.ts:53-59 | another tab's write is taken over only without unsaved work and only if readable |
| DraftStorage.NoLostUpdate | apps/web/components/studio/use-studio-draft.ts:18-76 | stored values form one chain, each overwritten only by a tab that had read or written it, unreadable ones backed up, and saved tabs show what they last saw stored |
| DraftStorage.SaveSucceedsIff | apps/web/components/studio/use-studio-draft.ts:18-28 | a save succeeds exactly if nobody wrote since the tab looked and there is room for its writes; otherwise the stored workspace is as it was and the work stays unsaved |
| DraftStorage.SavedEditIsSeen | apps/web/components/studio/use-studio-draft.ts:18-77 | a saved edit is shown by every tab opened later and, once told, by every open tab without unsaved work; and the tab can save again |
| DraftStorage.OpenedTabShows | apps/web/components/studio/use-studio-draft.ts:29-49 | what an opened tab shows and keeps, for readable, unreadable, absent and blocked storage and for older versions' work |
| Transaction.UseCaseSession.Run | apps/api/app/db/transaction.py:14-39 | running statements on the session gives the specified state and error |
| Transaction.OutermostScope | apps/api/app/db/transaction.py:27-39 | an outermost scope commits all writes exactly when its body ends normally, no nested scope raised and the database agrees; otherwise none survives; the marker is gone |
| Transaction.Inside | apps/api/app/db/transaction.py:20-26 | inside a scope a body adds its writes and poisons the marker exactly by the failures of nested scopes |
| Transaction.MarkerAlwaysRemoved | apps/api/app/db/transaction.py:29-39 | any nesting of scopes and caught errors leaves an idle session idle |
| Statistics.DaysTile | apps/api/app/db/product_stats_queue.py:8-16 | day windows lie end to end and an instant is in exactly the window of its day |
| Statistics.StatisticsTables.RebuildDay | apps/api/app/use_cases/product_statistics.py:20-50 | the loop over the facts stores the recomputed figures of one day and nothing else |
| Statistics.StatisticsTables.RebuildClaimed | apps/api/app/use_cases/product_statistics.py:63-75 | one claimed day is rebuilt and taken off the queue, or, if its transaction dies after any number of its writes, everything is as before |
| Statistics.StatisticsTables.ProcessPending | apps/api/app/use_cases/product_statistics.py:54-78 | a batch takes off the queue what it recomputed, up to its limit; a transaction that dies keeps its row and ends the batch |
| Statistics.EveryDayFresh | apps/api/app/use_cases/product_statistics.py:20-78 | in every reachable state a day that is not queued has the figures of all facts in its window |
| Statistics.BatchKeepsFresh | apps/api/app/use_cases/product_statistics.py:54-78 | a batch, failed or not, keeps that |
| Statistics.FactInItsDay | apps/api/app/db/product_stats_queue.py:8-16 | a fact belongs to exactly the day its transaction queues |
| Statistics.FiguresAre | apps/api/app/use_cases/product_statistics.py:20-50 | a day's figures are the count, the users and the sum of the amounts of exactly the product's facts on that day in Seoul |
| Statistics.RequeuesExactly | apps/api/app/modules/content/product/service/command/statistics.py:39-56 | a repair queues of the given products today and as many days before as asked, one to thirty-one, and no other day |
| Statistics.SeoulMidnight | apps/api/app/db/product_stats_queue.py:8-16 | one day's window in absolute time |

## Left out

- The worker's drain loop and its bound on running tasks, the mail outbox with its lease and token fence, the rate limit counters, and the build's pattern checker with its shrinking baseline.
- Servers that send no history revision or checkpoint: no agreement is intended there. An empty cursor string counts as absent.
- Abort signals and network aborts of a superseded history read: the read may still finish late, which the model allows and fences.
- Conversation keys are lowered by ASCII; message fields that no branch looks at (sender, product) are one opaque part of the content.
- JSON typing of stored documents: the readers are modelled on typed values, so wrongly typed fields are outside; their counts, ranges, ids and references are inside. The server's lore activation `semantic` has no typed value in the editor and is left out.
- Fresh UUIDs are ids not in use; digests and fingerprints are injective, so a request or document is remembered as itself.
- `localeCompare` is an arbitrary strict total order on keys. Strings that it calls equal though they differ, lone surrogates and infinite numbers are outside.
- Exporting, the server calls behind imports, and the page components around the named state changes.
- WorkspaceImports.SampleIsValid: does not model the sample's prose, which no reader looks at.
- StudioPublication.ProductStudio.Save: does not model the profile and tags that saving copies to an unpublished product.
- StudioPublication.ProductStudio.Reconcile: does not model the writes of tags, image attachments and visibility.
- StudioPublication.ProductStudio.Publish: does not model tags, image attachments, visibility, component locks, activation services or the content of the release note's change kind beyond first or later; services that may refuse are one parameter. New characters take ids in document order; the source sorts by known id first, which only renumbers fresh ids. Blank text means ASCII white space.
- StudioServerRuns.PutReplacesRecorded: does not model the physical deletion of an unpublished product, after which a draft's revisions would start over; drafts here only gain revisions.
- Reading and writing one storage entry between two awaits is one step. One owner is modelled; other owners have other keys.
- AdminSession: a logout's clear comes at any time after the lock is released, or never if its tab closes. Cookies and their removal are one cell that every answer changes on arrival; requests other than refresh, login and logout can only take the cookie away. The code `csrf_failed` only comes with status 403. A browser without locks never refreshes and is left out.
- AnswerRetry: the page's pending state and its stored value are one value, and a duplicated tab, which copies session storage, is not modelled; the server's extra refusal of a second answer to an answered message is not used. Prices, balances and notices are left out.
- ZipWriter: dates are zero as in the source; text encoding happens before. The archive is bytes in memory.
- DraftStorage: backups are a set of values; two backups in one millisecond would share a key in the source. Rendering state and timers are left out.
- Pagination: rows are their sort keys; the caller's filters only decide which rows the table has.
- AssetClose: reading itself and the scheduler are left out; a wait ends because its caller was cancelled or the close is done, in any order.
- Transaction: database errors are decided in advance by the program being run; savepoints do not occur.
- Statistics.StatisticsTables.RebuildDay: does not model the four statistics tables and three fact sources apart; figures are three sums over one list of facts that stand for the stored columns.
- Statistics: Asia/Seoul is nine hours ahead at all times; transactions are serial, so the row locks that make them so are not modelled.
