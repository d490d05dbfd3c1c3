# Portal stores and string rules, modelled in Dafny

This project models the state-holding core of an internal company portal
(a React single-page application) and proves properties of it:

- the **identity/progression store** (`contexts/AuthContext.tsx`): one session
  user, profile editing that forces the admin role, reset to a fixed default
  identity, and the single-pass level-up rule of `gainXp`;
- the **board store** (`contexts/DataContext.tsx`): gallery posts, newest first,
  each with nested comments and a like counter, written to local storage after
  every change;
- the **site-content store** (`contexts/SiteContext.tsx`): the landing-page
  config, updated by shallow merge and persisted;
- the **gallery page handlers** (`pages/Gallery.tsx`): tag parsing
  (`split(',')`, `trim`, drop empties), building a post or a comment from the form
  and the current user, awarding 50 or 10 XP, keeping the page's copy of the open
  post in step;
- the **smart-work page handlers** (`pages/SmartWork.tsx`): the empty-input
  guard, the 10 XP award, prompt composition with
  `template.replace(/\[.*?\]/, input)`, and the reset on template selection.

Files, one module each: `wrappers.dfy` (Option), `types.dfy` (the records of
`types.ts`), `jsstring.dfy` (JavaScript `trim` and `split(',')`), `auth.dfy`,
`data.dfy`, `site.dfy`, `tags.dfy`, `prompt.dfy`, `gallery.dfy`, `smartwork.dfy`.

Stores whose state the source replaces through `setState` are classes whose
methods assign their fields; the new value each computes is a pure function
(`XpAfter`, `Prepended`, `Commented`, `Liked`, `Merge`, `ComposePrompt`,
`ParseTags`) about which the lemmas are proved. A local-storage slot is a field
of type `Option<T>`; the predicate `Persisted()` says that the slot holds the
current value, and every store method keeps it. Each event handler is one atomic
step. Clock values (`Date.now()`, `toLocaleDateString()`) are method parameters,
and so is the text-generation call (`generate: string -> string`). The built-in
seed posts, the built-in site config and the first office template come from a
constants file that is not part of this model; they are constructor parameters.

Where the design description and the code disagree, the model follows the code:

- The description promises `0 <= xp < maxXp` after every `gainXp`. The code tests
  the threshold once, so a large award can leave `xp >= maxXp`
  (`Auth.NoCascadeExample`: the default user given 5000 XP ends at level 11 with
  4000 XP against a maxXp of 1100). The invariant does hold for every sequence of
  awards of at most 200 XP from level 1 up, which covers the portal's 10 and 50
  XP awards (`Auth.SmallAwardsKeepXpBelowMax`).
- The description says an unparsable storage entry falls back to the default.
  The code calls `JSON.parse` unguarded, so such an entry throws; the model has no
  parse step at all (see Left out).
- The default user's maxXp is 6000, not `10 * 100`; `maxXp == level * 100` holds
  only after a level-up (`Auth.GainXpLevelUp`).

## Model

| member | source | states |
|---|---|---|
| Auth.GainXpBelowThreshold | contexts/AuthContext.tsx:53-68 | below the threshold only xp grows, by exactly the amount; level and maxXp stay |
| Auth.GainZeroIsNoOp | contexts/AuthContext.tsx:53-68 | gaining 0 XP while xp < maxXp leaves the user as it was |
| Auth.GainXpLevelUp | contexts/AuthContext.tsx:53-61 | reaching the threshold gives xp + amount - maxXp, level + 1 and maxXp = (level + 1) * 100 |
| Auth.AtMostOneLevelPerCall | contexts/AuthContext.tsx:57-61 | one call raises the level by 0 or 1, and by 1 exactly when xp + amount >= maxXp |
| Auth.NoCascadeExample | contexts/AuthContext.tsx:7-61 | the default user given 5000 XP reaches level 11 with xp 4000 >= maxXp 1100: no second level-up |
| Auth.LastPointLevelsUp | contexts/AuthContext.tsx:57-61 | one XP short of maxXp, one more XP gives level + 1, xp 0, maxXp (level + 1) * 100 |
| Auth.XpBounds | contexts/AuthContext.tsx:53-61 | xp stays non-negative, and ends below maxXp exactly when xp + amount < maxXp or < maxXp + (level + 1) * 100 |
| Auth.GainXpKeepsIdentity | contexts/AuthContext.tsx:63-68 | id, name, email, department and role are untouched by the XP rule |
| Auth.SmallAwardsKeepXpBelowMax | contexts/AuthContext.tsx:50-69 | from level >= 1 and 0 <= xp < maxXp, any sequence of awards in 0..200 keeps 0 <= xp < maxXp and never lowers the level |
| Auth.AuthStore.constructor | contexts/AuthContext.tsx:7-20 | the session starts as the default admin identity (level 10, xp 5000, maxXp 6000) |
| Auth.AuthStore.Login | contexts/AuthContext.tsx:27-37 | name, email and department become the arguments, role becomes admin; id, level, xp and maxXp are kept |
| Auth.AuthStore.Logout | contexts/AuthContext.tsx:39-43 | the user becomes the default identity whatever it was, so logging out twice equals once |
| Auth.AuthStore.ApproveUser | contexts/AuthContext.tsx:45-48 | approving changes nothing |
| Auth.AuthStore.GainXp | contexts/AuthContext.tsx:50-69 | without a user nothing changes; otherwise the user becomes XpAfter(user, amount) |
| Data.Prepended | contexts/DataContext.tsx:24-26 | the new post is at index 0, old post k is at k + 1, length grows by one |
| Data.Commented | contexts/DataContext.tsx:28-35 | same length and order; every post with the id gets the comment at the end of its comments and nothing else changes; other posts are untouched |
| Data.Liked | contexts/DataContext.tsx:37-44 | same length and order; every post with the id gains exactly one like and nothing else; other posts are untouched |
| Data.CommentOnMissingPost | contexts/DataContext.tsx:28-35 | commenting on an id no post has leaves the board unchanged |
| Data.LikeMissingPost | contexts/DataContext.tsx:37-44 | liking an id no post has leaves the board unchanged |
| Data.LikedTimesCounts | contexts/DataContext.tsx:37-44 | n likes raise each matching post's likes by exactly n and leave every other post and field unchanged |
| Data.LikeTwiceDiffers | contexts/DataContext.tsx:37-44 | liking is not idempotent: a second like on an existing post changes the board again |
| Data.UpdatesKeepIds | contexts/DataContext.tsx:28-44 | liking and commenting keep the id at every index |
| Data.DataStore.constructor | contexts/DataContext.tsx:14-22 | initial load takes the stored list when present, else the seed posts, and storage then holds it |
| Data.DataStore.AddPost | contexts/DataContext.tsx:20-26 | posts become Prepended(old posts, post) and storage holds the new list |
| Data.DataStore.AddComment | contexts/DataContext.tsx:28-35 | posts become Commented(old posts, id, comment) and storage holds the new list |
| Data.DataStore.ToggleLike | contexts/DataContext.tsx:37-44 | posts become Liked(old posts, id) and storage holds the new list |
| Site.Merge | contexts/SiteContext.tsx:22-24 | each of the six fields takes the patch's value when supplied and keeps the old value when absent |
| Site.MergeEmptyIsIdentity | contexts/SiteContext.tsx:22-24 | an empty patch leaves the config unchanged |
| Site.MergeIdempotent | contexts/SiteContext.tsx:22-24 | applying the same patch twice equals applying it once |
| Site.MergeTwice | contexts/SiteContext.tsx:22-24 | patch p then patch q equals one patch combining them with q winning on shared fields |
| Site.MergeFull | pages/Admin.tsx:25-27 | a patch supplying every field, as the admin save sends, replaces the whole config |
| Site.SiteStore.constructor | contexts/SiteContext.tsx:12-20 | initial load takes the stored config when present, else the built-in default, and storage then holds it |
| Site.SiteStore.UpdateConfig | contexts/SiteContext.tsx:18-24 | config becomes Merge(old config, patch) and storage holds it |
| Site.UpdateThenReload | contexts/SiteContext.tsx:12-24 | after an update, a reload reads back the merged config from storage |
| JsString.LeadingSpaceRun | pages/Gallery.tsx:31 | the count covers exactly the whitespace run at the front of the text |
| JsString.TrailingSpaceRun | pages/Gallery.tsx:31 | the count covers exactly the whitespace run at the back of the text |
| JsString.TrimInfix | pages/Gallery.tsx:31 | the result of trim is the infix of the text that starts after its leading whitespace |
| JsString.TrimEnds | pages/Gallery.tsx:31 | a non-empty trimmed result has no JavaScript whitespace or line terminator at either end |
| JsString.TrimEmptyIff | pages/Gallery.tsx:31 | trim gives the empty string exactly when every character is whitespace (both directions) |
| JsString.TrimIdentity | pages/Gallery.tsx:31 | text with no whitespace at either end is returned unchanged |
| JsString.TrimKeepsAbsent | pages/Gallery.tsx:31 | trimming never introduces a character that was not in the text |
| JsString.SplitCount | pages/Gallery.tsx:31 | split on commas gives one piece more than there are commas |
| JsString.SplitPiecesNoComma | pages/Gallery.tsx:31 | no piece of the split contains a comma |
| JsString.SplitNoComma | pages/Gallery.tsx:31 | a comma-free text splits into exactly itself |
| JsString.SplitAtComma | pages/Gallery.tsx:31 | splitting a,b gives the pieces of a followed by the pieces of b |
| JsString.JoinSplit | pages/Gallery.tsx:31 | joining the pieces with commas gives back the input |
| Tags.PieceTags | pages/Gallery.tsx:31 | one piece yields at most one tag |
| Tags.PieceTagsWellFormed | pages/Gallery.tsx:31 | the tag a piece yields is non-empty and trimmed, and comma-free when the piece is |
| Tags.Clean | pages/Gallery.tsx:31 | no more tags than pieces |
| Tags.CleanWellFormed | pages/Gallery.tsx:31 | every cleaned tag is non-empty and trimmed, and comma-free when every piece is |
| Tags.ParseTags | pages/Gallery.tsx:31 | at most one tag more than there are commas in the input |
| Tags.ParseTagsWellFormed | pages/Gallery.tsx:31 | every tag is non-empty, has no leading or trailing whitespace and contains no comma |
| Tags.CleanConcat | pages/Gallery.tsx:31 | trimming and filtering distributes over concatenation of piece lists |
| Tags.ParseTagsPiece | pages/Gallery.tsx:31 | a comma-free input gives its trimmed self, or no tag when blank |
| Tags.ParseTagsAtComma | pages/Gallery.tsx:31 | the tags of a,b are the tags of a followed by the tags of b, so input order is kept |
| Tags.ParseTagsOfEmpty | pages/Gallery.tsx:31 | the empty input gives no tags |
| Tags.BareTag | pages/Gallery.tsx:31 | a comma-free piece without padding is its own single tag |
| Tags.SpacedTag | pages/Gallery.tsx:31 | a comma-free piece with one leading space gives the text after that space |
| Tags.BlankTag | pages/Gallery.tsx:31 | a single space trims to nothing |
| Tags.FourPieces | pages/Gallery.tsx:31 | the tags of four comma-separated pieces are the tags of each piece in order |
| Tags.FourPieceShape | pages/Gallery.tsx:31 | a bare tag, a spaced tag, a blank piece and a spaced tag give the three tags in order, the blank one dropped |
| Tags.ParseTagsExample | pages/Gallery.tsx:31 | "엑셀, ChatGPT, , 시간단축" gives ["엑셀", "ChatGPT", "시간단축"] |
| Prompt.FindClose | pages/SmartWork.tsx:20 | finds the first ] after a [ with no line terminator before it, or reports that a line terminator comes before every ] |
| Prompt.FindPlaceholder | pages/SmartWork.tsx:20 | finds a match of \[.*?\] with no match starting earlier, or reports that no match starts anywhere |
| Prompt.ExpandLiteral | pages/SmartWork.tsx:20 | a replacement without $ is inserted literally |
| Prompt.ComposePrompt | pages/SmartWork.tsx:20 | with no placeholder on a single line the template is unchanged; otherwise the text before the first match, the expanded input and the text after it |
| Prompt.ComposeLiteral | pages/SmartWork.tsx:20 | with no $ in the input the prompt is prefix + input + suffix around the first match |
| Prompt.ComposeFirstOnly | pages/SmartWork.tsx:20 | only the first bracketed segment is replaced; later placeholders stay in the prompt |
| Gallery.GalleryPage.constructor | pages/Gallery.tsx:11-17 | the form is closed and empty and no post is open |
| Gallery.GalleryPage.OpenModal | pages/Gallery.tsx:80 | the post form opens; nothing else changes |
| Gallery.GalleryPage.CancelModal | pages/Gallery.tsx:163 | the post form closes and keeps what was typed |
| Gallery.GalleryPage.SelectPost | pages/Gallery.tsx:122 | the page's open post becomes a copy of the clicked board post |
| Gallery.GalleryPage.ClosePost | pages/Gallery.tsx:184 | no post is open afterwards |
| Gallery.GalleryPage.HandlePostSubmit | pages/Gallery.tsx:19-42 | without a user nothing changes; otherwise a post by the user's name and department with 0 likes, no comments and the parsed tags is prepended, the user gains 50 XP and the form is cleared and closed |
| Gallery.GalleryPage.HandleCommentSubmit | pages/Gallery.tsx:44-64 | without a user, an open post or non-blank text nothing changes and no XP is given; otherwise the comment goes to every board post with the open post's id and to the end of the page's copy, the user gains 10 XP and the field is cleared |
| SmartWork.SmartWorkPage.constructor | pages/SmartWork.tsx:8-12 | the page opens on the first template with empty input and result |
| SmartWork.SmartWorkPage.HandleGenerate | pages/SmartWork.tsx:14-25 | an empty input sends nothing and changes nothing; any other input, whitespace included, gives 10 XP, sends ComposePrompt(template, input) and stores the answer as the result |
| SmartWork.SmartWorkPage.SelectTask | pages/SmartWork.tsx:75 | choosing a template clears both the result and the input |
| SmartWork.SmartWorkPage.EditInput | pages/SmartWork.tsx:103 | typing replaces the input and nothing else |
| SmartWork.SmartWorkPage.ClearResult | pages/SmartWork.tsx:134 | the reset button clears the result and nothing else |

## Left out

- `services/geminiService.ts` (the text-generation client, a network call) is not part of this model; generation is the `generate` parameter of `HandleGenerate`, so the "no API key" message and the error-to-text conversion are not modelled.
- `pages/LabAssistant.tsx`, `pages/Templates.tsx` and `components/FloatingChat.tsx` are chat shells around that network call and are not part of this model.
- Layout, routing and static pages (`components/Layout.tsx`, `App.tsx`, `pages/Home.tsx`, `pages/Archive.tsx`, `pages/Guide.tsx`, `pages/Support.tsx`) and the XP bar percentage, which is floating-point display.
- The profile form's guard in `components/Layout.tsx` (login only with non-empty name, email and department) belongs to the caller and is not a precondition of `Login`.
- `pages/Admin.tsx` is form UI; its save sends a full config, covered by `Site.MergeFull`.
- Local storage and JSON: a slot is an `Option` of the decoded value; None covers both an absent key and an empty stored string. Corrupt stored text, on which the source's unguarded `JSON.parse` throws, is not modelled.
- A `Partial<SiteConfig>` key present with the value `undefined` overwrites the field in JavaScript; the model only has supplied and absent keys.
- Post and comment ids and dates come from the clock and are parameters; their uniqueness is not proved.
- JavaScript numbers are doubles; XP, levels and likes are unbounded integers, so rounding of huge or fractional values is not modelled.
- Strings are sequences of Unicode code points, while JavaScript strings are UTF-16 code units; the rules modelled here only test `,`, `[`, `]`, `$`, whitespace and line terminators, all single code units, so both readings agree.
- `alert`, `console.log`, the clipboard and React's rendering, batching and effect scheduling; each handler is one atomic step, and state changes by other handlers while the generation request is awaited are not modelled.
- The `pendingUsers` list (always empty) and the constant `isAuthenticated`, `isApproved` and `isAdmin` flags.
- Auth.AuthStore.Login: requires a current user, as the source's non-null assertion `user!` assumes; the store never holds none, since its constructor and every method leave a user in place.
