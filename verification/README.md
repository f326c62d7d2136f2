# coreskills interactive exercise components, modelled in Dafny

coreskills is a practice site for software engineers. Learners work through learning
paths of coding, system-design and code-review challenges. This project models the
client-side logic of the site's interactive exercise components:

- **Drawing canvas** (`DrawingCanvas`, with `Geometry` and `UndoHistory`). This is the
  whiteboard of the system-design challenges. It keeps a list of rectangles, circles,
  text, lines and arrows. Selection uses bounding-box hit testing. A drag moves the
  selected element. A linear undo/redo history stores full snapshots. Every change
  hands the host a snapshot of the 800 by 600 scene. The canvas is an imperative
  `Canvas` class whose methods are proved against the pure history functions and
  geometry functions. `CanvasScenarios` drives a canvas through event sequences using
  only those contracts.
- **Solution comparison** (`SolutionComparison`). This selector chooses which solution
  approaches are shown side by side: between one and three of them, and the oldest is
  evicted when a fourth is picked.
- **Community discussion** (`CommunityDiscussion`). It covers posting comments and
  replies, likes, the search and tag filter, and the "most popular" ordering.
- **Code-review exercise** (`CodeReview`). It covers line annotations, the issue form
  and its defaults, the issue-type catalogue and the `m:ss` clock display.
- **Challenge catalogue** (`ChallengesPage`). It covers search over learning paths and
  their challenges, and the per-type wording of challenge cards.
- **Sign-up form** (`Signup`). It covers the password checks made before an account is
  requested, and the error, success and loading flags around the request.

Shared modules:

- `Optional` holds the option type. It models `null`, `undefined` and optional fields.
- `Seqs` holds order-preserving filtering, the model of `Array.prototype.filter`.
- `Text` holds `trim`, `toLowerCase`, `includes`, integer `toString` and `padStart`.

Where this code and the system's written design disagree, the model follows the code:

- **Hit test.** A click selects the *first* element in list order whose box contains
  the point. That is the one drawn underneath, not the topmost one
  (`Geometry.HitTest`, `Geometry.HitTestPicksEarlier`).
- **Drag.** The drag offset is measured from the bounding-box origin but written into
  the element's `x, y`. Rectangles therefore follow the pointer. Circles jump up and
  left by their radius, and text jumps up by 16
  (`Geometry.PressWithoutMotionShiftsCircleAndText`).
- **History seeding.** The history starts as a single empty snapshot. It is not seeded
  with the initial drawing, so clear followed by undo on a freshly opened drawing gives
  an empty scene (`CanvasScenarios.UnseededUndo`).
- **Tag filter.** The discussion's filter options are plural ("solutions"), while
  comments carry singular tags ("solution"). Any option other than "all" therefore
  hides every comment (`CommunityDiscussion.TagOptionsNeverMatch`).
- **Blank queries in the catalogue.** A query of blanks shows every learning path, but
  each path's challenges are still filtered by the untrimmed query
  (`ChallengesPage.BlankQueryEmptiesChallengeLists`).

## Model

| member | source | states |
|---|---|---|
| Text.TrimStart | src/components/drawing/DrawingCanvas.tsx:336 | The result is a suffix of the input, everything removed is whitespace, and the result does not start with whitespace. |
| Text.TrimEnd | src/components/drawing/DrawingCanvas.tsx:336 | The result is a prefix of the input, everything removed is whitespace, and the result does not end with whitespace. |
| Text.DecimalString | src/components/codeReview/CodeReviewInterface.tsx:111 | `toString` of a non-negative integer is a non-empty string of decimal digits without a leading zero. |
| Text.DecimalRoundTrip | src/components/codeReview/CodeReviewInterface.tsx:111 | Reading back the digits `toString` wrote gives the number. |
| Text.PadStart | src/components/codeReview/CodeReviewInterface.tsx:111 | `padStart` reaches the requested width, keeps the input as its suffix, and fills the front with the fill character only. |
| Text.Trim | src/components/drawing/DrawingCanvas.tsx:336 | `trim` gives the empty string exactly for a blank input, and otherwise neither starts nor ends with whitespace. |
| Text.Includes | src/pages/ChallengesPage.tsx:98-99 | `includes` never finds something longer than the string, and always finds the empty string. |
| Seqs.Filter | src/components/codeReview/CodeReviewInterface.tsx:148-150 | `filter` keeps each element that passes the test as often as it occurs, drops the others, keeps the order, and returns the input when everything passes. |
| Text.ToLower | src/pages/ChallengesPage.tsx:98-99 | `toLowerCase` keeps the length and maps each character on its own. |
| Geometry.Bounds | src/components/drawing/DrawingCanvas.tsx:153-191 | The bounding box has non-negative extent for the sizes the tools produce. A rectangle's box starts at its anchor and has the rectangle's width and height. A circle's box is the square of side 2r centred on it. A text box starts 16 above the baseline, is 20 high and 10 per character wide. |
| Geometry.SegmentBoundsAreTight | src/components/drawing/DrawingCanvas.tsx:176-187 | A line's or arrow's box contains both end points and lies inside any box that contains them. |
| Geometry.CircleBoundsCoverDisc | src/components/drawing/DrawingCanvas.tsx:162-168 | Every point of a circle's disc hits the circle. |
| Geometry.IsPointInElement | src/components/drawing/DrawingCanvas.tsx:193-197 | A point hits a rectangle exactly inside its closed extent, a circle exactly inside the closed square around it, and text exactly inside its 10-per-character by 20 box starting 16 above the baseline. |
| Geometry.ZeroBoxContainsOnlyCorner | src/components/drawing/DrawingCanvas.tsx:193-197 | The hit test is inclusive on all edges: a zero-size box is hit exactly at its corner. |
| Geometry.HitTest | src/components/drawing/DrawingCanvas.tsx:219 | The result is the index of the first element whose box contains the point, or none when no box does. |
| Geometry.HitTestPicksEarlier | src/components/drawing/DrawingCanvas.tsx:219 | Of two overlapping elements, the earlier in the list is picked. |
| Geometry.MoveTo | src/components/drawing/DrawingCanvas.tsx:251-271 | A drag puts the element's anchor at the target and keeps id, colour and stroke. It keeps a non-segment's shape, and it keeps a segment's kind, its `x, y` and its end-minus-start vector. |
| Geometry.MoveTranslatesSegment | src/components/drawing/DrawingCanvas.tsx:261-269 | A drag moves both end points of a line or arrow by the same delta. |
| Geometry.DragOffset | src/components/drawing/DrawingCanvas.tsx:222-226 | The recorded offset added to the box origin gives back the press point. |
| Geometry.PressWithoutMotion | src/components/drawing/DrawingCanvas.tsx:222-226 | Pressing and moving to the same point puts the anchor on the bounding-box origin. |
| Geometry.PressWithoutMotionKeepsRectangle | src/components/drawing/DrawingCanvas.tsx:222-226 | For a rectangle, that zero-motion drag changes nothing. |
| Geometry.PressWithoutMotionShiftsCircleAndText | src/components/drawing/DrawingCanvas.tsx:251-258 | For a circle, that zero-motion drag moves it by minus its radius on both axes; for text it moves it up by 16. |
| Geometry.MoveSelected | src/components/drawing/DrawingCanvas.tsx:248-276 | Order and ids are kept, non-selected elements are unchanged, and every selected element becomes `MoveTo` of itself at the target, so its anchor lands there and its other fields are kept. |
| UndoHistory.Initial | src/components/drawing/DrawingCanvas.tsx:36-37 | The initial history holds one empty snapshot, and neither undo nor redo is possible. |
| UndoHistory.Commit | src/components/drawing/DrawingCanvas.tsx:45-50 | After a commit, the current snapshot is the new scene, undo is possible, redo is not, and the snapshots up to the old position are kept. |
| UndoHistory.Undo | src/components/drawing/DrawingCanvas.tsx:65-74 | Undo moves one step back when possible, otherwise it changes nothing. Snapshots are never altered. |
| UndoHistory.Redo | src/components/drawing/DrawingCanvas.tsx:76-85 | Redo moves one step forward when possible, otherwise it changes nothing. Snapshots are never altered. |
| UndoHistory.UndoThenRedo | src/components/drawing/DrawingCanvas.tsx:65-85 | Redo after undo restores the history. |
| UndoHistory.RedoThenUndo | src/components/drawing/DrawingCanvas.tsx:65-85 | Undo after redo restores the history. |
| UndoHistory.CommitKeepsFirst | src/components/drawing/DrawingCanvas.tsx:46 | A commit never changes the first snapshot. |
| UndoHistory.CommitAfterUndoDiscardsRedo | src/components/drawing/DrawingCanvas.tsx:46-49 | A commit after an undo discards the redo branch. |
| UndoHistory.UndoTimes | src/components/drawing/DrawingCanvas.tsx:65-74 | Any number of undos keeps the snapshots and a valid position. |
| UndoHistory.UndoTimesReachesFirst | src/components/drawing/DrawingCanvas.tsx:68-71 | Enough undos always reach the first snapshot, and then stay there. |
| DrawingCanvas.Snapshot | src/components/drawing/DrawingCanvas.tsx:55-59 | A saved snapshot carries the scene on an 800 by 600 surface. |
| DrawingCanvas.NewShape | src/components/drawing/DrawingCanvas.tsx:288-318 | A new shape gets the given id, colour #374151 and stroke 2, and the geometry of the current tool. A rectangle, line or arrow is anchored at the smaller coordinate of press and release on each axis. A rectangle's width and height are the absolute drag distances on each axis. A circle sits at the press point with the computed radius. A line or arrow runs from the press point to the release point. All sizes are non-negative. |
| DrawingCanvas.RectangleSpansDrag | src/components/drawing/DrawingCanvas.tsx:298-300 | A rectangle's box has the press and release points as opposite corners, whichever way the drag went. |
| DrawingCanvas.CircleDiameterIsDragDistance | src/components/drawing/DrawingCanvas.tsx:302-308 | A circle is centred on the press point, and its diameter is the drag distance. |
| DrawingCanvas.NewText | src/components/drawing/DrawingCanvas.tsx:336-344 | A new text element is anchored at the prompt position, with stroke 1 and the default colour. |
| DrawingCanvas.Without | src/components/drawing/DrawingCanvas.tsx:361 | Deleting drops exactly the elements with the id, and keeps every other element as often as it occurs, in order. |
| DrawingCanvas.Canvas.Emitted | src/components/drawing/DrawingCanvas.tsx:53-63 | A save hands the host exactly one snapshot when there is an `onSave`, and none otherwise. The snapshot is the scene at 800 by 600. |
| DrawingCanvas.Canvas.constructor | src/components/drawing/DrawingCanvas.tsx:30-40 | A new canvas shows the initial elements, or none. Its history is the unseeded initial one. It starts with the select tool and no selection. |
| DrawingCanvas.Canvas.SetTool | src/components/drawing/DrawingCanvas.tsx:435-508 | A toolbar button sets the current tool. |
| DrawingCanvas.Canvas.AddToHistory | src/components/drawing/DrawingCanvas.tsx:45-50 | The new history is `Commit` of the old one with the scene, and the first snapshot stays empty. |
| DrawingCanvas.Canvas.TriggerSave | src/components/drawing/DrawingCanvas.tsx:53-63 | Exactly the emitted snapshot is appended to what the host has received. |
| DrawingCanvas.Canvas.Undo | src/components/drawing/DrawingCanvas.tsx:65-74 | The history follows `Undo`. When a step was taken, the scene becomes the new current snapshot and is saved; otherwise nothing changes. |
| DrawingCanvas.Canvas.Redo | src/components/drawing/DrawingCanvas.tsx:76-85 | The history follows `Redo`. When a step was taken, the scene becomes the new current snapshot and is saved; otherwise nothing changes. |
| DrawingCanvas.Canvas.MouseDown | src/components/drawing/DrawingCanvas.tsx:208-238 | In read-only mode nothing changes. The select tool selects the first hit element, records the offset from its box and starts a drag, or clears the selection. The text tool opens the prompt at the point. A shape tool starts drawing. |
| DrawingCanvas.Canvas.MouseMove | src/components/drawing/DrawingCanvas.tsx:240-278 | While dragging a selection, the elements become `MoveSelected` at pointer minus offset; otherwise nothing changes. |
| DrawingCanvas.Canvas.MouseUp | src/components/drawing/DrawingCanvas.tsx:280-330 | A shape tool appends the new shape, commits and saves. A selection drag commits and saves the moved scene. Otherwise nothing is recorded. Drawing stops. |
| DrawingCanvas.Canvas.SetTextInput | src/components/drawing/DrawingCanvas.tsx:607 | The prompt's text is what was typed. |
| DrawingCanvas.Canvas.TextSubmit | src/components/drawing/DrawingCanvas.tsx:332-355 | Non-blank text is appended as a text element, committed and saved. Blank text changes nothing. In both cases the prompt closes and empties. |
| DrawingCanvas.Canvas.CancelText | src/components/drawing/DrawingCanvas.tsx:616-630 | Escape and Cancel close the prompt. |
| DrawingCanvas.Canvas.DeleteSelected | src/components/drawing/DrawingCanvas.tsx:357-368 | With a selection, the elements with that id are removed, the change is committed and saved, and the selection is cleared. Without one, nothing changes. |
| DrawingCanvas.Canvas.ClearCanvas | src/components/drawing/DrawingCanvas.tsx:370-379 | The scene becomes empty, the empty scene is committed and saved, and the selection is cleared. |
| DrawingCanvas.Canvas.SaveCanvas | src/components/drawing/DrawingCanvas.tsx:381-386 | The current scene is handed to the host, and the history is left alone. |
| CanvasScenarios.DrawRectangle | src/components/drawing/DrawingCanvas.tsx:280-330 | A rectangle dragged from (10,10) to (60,40) gives one 50 by 30 rectangle at (10,10), two snapshots and one save. |
| CanvasScenarios.DragRectangle | src/components/drawing/DrawingCanvas.tsx:208-278 | Pressing inside the rectangle at (30,20) and releasing at (80,70) moves it to (60,60) and commits the move. |
| CanvasScenarios.DrawDragUndo | src/components/drawing/DrawingCanvas.tsx:65-74 | After draw and drag, the first undo restores (10,10) and the second gives the empty scene. |
| CanvasScenarios.ClearThenUndo | src/components/drawing/DrawingCanvas.tsx:370-379 | Clear then undo restores the scene, and the host receives the empty scene and then the restored one. |
| CanvasScenarios.UnseededUndo | src/components/drawing/DrawingCanvas.tsx:30-36 | On a canvas opened with initial data, clear then undo gives the empty scene, not the initial data. |
| SolutionComparison.Remove | src/components/solutions/SolutionComparison.tsx:78 | No occurrence of the index is left, every other index is kept as often as it occurs, and the order is kept. |
| SolutionComparison.RemoveAt | src/components/solutions/SolutionComparison.tsx:78 | Removing an index that occurs only at one position closes the gap there and keeps the order. |
| SolutionComparison.RemoveAbsent | src/components/solutions/SolutionComparison.tsx:78 | Removing an absent index changes nothing. |
| SolutionComparison.Toggled | src/components/solutions/SolutionComparison.tsx:75-88 | Toggling the only selected index keeps it. Toggling another selected index removes it and keeps every other index as often as it occurs. Toggling an unselected index puts it last. |
| SolutionComparison.ToggleKeepsValid | src/components/solutions/SolutionComparison.tsx:75-88 | Every toggle keeps one to three distinct indices selected, so the selection is never emptied. |
| SolutionComparison.ToggleOffRemovesOne | src/components/solutions/SolutionComparison.tsx:76-79 | Toggling off a selected index, when it is not the last, removes just it. |
| SolutionComparison.ToggleLastIsNoOp | src/components/solutions/SolutionComparison.tsx:77 | The only selected index cannot be toggled off. |
| SolutionComparison.ToggleOnAppends | src/components/solutions/SolutionComparison.tsx:81-82 | With fewer than three selected, a new index is appended. |
| SolutionComparison.ToggleOnEvictsOldest | src/components/solutions/SolutionComparison.tsx:83-85 | With three selected, a new index evicts the oldest. |
| SolutionComparison.ToggleOnOff | src/components/solutions/SolutionComparison.tsx:75-88 | With fewer than three selected and the index not yet selected, toggling it on and then off again restores the selection. |
| SolutionComparison.Selection.constructor | src/components/solutions/SolutionComparison.tsx:48 | The selection starts as approaches 0 and 1. |
| SolutionComparison.Selection.Toggle | src/components/solutions/SolutionComparison.tsx:75-88 | The state becomes `Toggled` of the old selection, and the invariant holds. |
| CommunityDiscussion.DisplayName | src/components/solutions/CommunityDiscussion.tsx:148 | The author name is the full name if non-empty, else the e-mail if non-empty, else "Anonymous". It is never empty. |
| CommunityDiscussion.NewPost | src/components/solutions/CommunityDiscussion.tsx:144-156 | A new post has no votes, no replies and no tags, and keeps the text as typed. |
| CommunityDiscussion.AddReply | src/components/solutions/CommunityDiscussion.tsx:177-182 | The reply is appended to each comment with the parent id. Everything else is unchanged. |
| CommunityDiscussion.LikeComment | src/components/solutions/CommunityDiscussion.tsx:203-208 | Each comment with the id gains one like. Nothing else changes. |
| CommunityDiscussion.LikeReply | src/components/solutions/CommunityDiscussion.tsx:190-201 | Only the replies of the parent comments are touched, and each gains likes as in `LikeComment`. |
| CommunityDiscussion.LikeAddsOnePerMatch | src/components/solutions/CommunityDiscussion.tsx:203-208 | A like raises the total likes by the number of comments with the id. |
| CommunityDiscussion.FilterComments | src/components/solutions/CommunityDiscussion.tsx:236-242 | The shown comments are those whose text contains the query, ignoring case, and which carry the selected tag. Each of them is kept as often as it occurs, the others are dropped, and the order is kept. |
| CommunityDiscussion.NoFilterKeepsAll | src/components/solutions/CommunityDiscussion.tsx:236-242 | With no query and "all", every comment is shown. |
| CommunityDiscussion.TagOptionsNeverMatch | src/components/solutions/CommunityDiscussion.tsx:240-241 | Any option other than "all" hides every comment tagged only with the singular tags the posts use. |
| CommunityDiscussion.InsertByScore | src/components/solutions/CommunityDiscussion.tsx:250-251 | Inserting into a popularity-ordered list keeps it ordered and adds exactly the new comment. |
| CommunityDiscussion.SortPopular | src/components/solutions/CommunityDiscussion.tsx:244-255 | The "popular" order is a permutation of the comments, by likes minus dislikes, highest first. |
| CommunityDiscussion.SortPopularKeepsSorted | src/components/solutions/CommunityDiscussion.tsx:244-255 | A list already in that order is left unchanged. |
| CommunityDiscussion.SortPopularIdempotent | src/components/solutions/CommunityDiscussion.tsx:244-255 | Sorting twice is sorting once. |
| CommunityDiscussion.Discussion.constructor | src/components/solutions/CommunityDiscussion.tsx:45-48 | The discussion starts with the loaded comments, empty inputs and no reply box open. |
| CommunityDiscussion.Discussion.SetNewComment | src/components/solutions/CommunityDiscussion.tsx:462 | The comment box holds what was typed. |
| CommunityDiscussion.Discussion.SetReplyContent | src/components/solutions/CommunityDiscussion.tsx:350 | The reply box holds what was typed. |
| CommunityDiscussion.Discussion.ToggleReplying | src/components/solutions/CommunityDiscussion.tsx:321 | The Reply button opens this comment's reply box, or closes it when it is open. |
| CommunityDiscussion.Discussion.CancelReply | src/components/solutions/CommunityDiscussion.tsx:359 | Cancel closes the reply box. |
| CommunityDiscussion.Discussion.SubmitComment | src/components/solutions/CommunityDiscussion.tsx:142-159 | A blank text or no signed-in user changes nothing. Otherwise the new post goes first and the box empties. |
| CommunityDiscussion.Discussion.SubmitReply | src/components/solutions/CommunityDiscussion.tsx:161-185 | A blank reply or no signed-in user changes nothing. Otherwise the reply, with id `parentId-stamp`, is added under its parent, and the reply box empties and closes. |
| CommunityDiscussion.Discussion.Like | src/components/solutions/CommunityDiscussion.tsx:187-211 | Without a user nothing changes. A reply with a non-empty parent id is liked inside its parent. Anything else is liked as a top-level comment. |
| CodeReview.FindIssueType | src/components/codeReview/CodeReviewInterface.tsx:157 | The result is the first catalogue position with the value, or none when the value is absent. |
| CodeReview.IssueTypeInfo | src/components/codeReview/CodeReviewInterface.tsx:156-158 | The result is the catalogue entry for a known type, and the first entry for an unknown one. |
| CodeReview.IssueTypeValuesDistinct | src/components/codeReview/CodeReviewInterface.tsx:43-54 | The ten catalogue values are distinct. |
| CodeReview.DefaultIssueTypeInfo | src/components/codeReview/CodeReviewInterface.tsx:72-77 | The form's default type "bug" shows as "Bug/Logic Error". |
| CodeReview.UnknownIssueTypeInfo | src/components/codeReview/CodeReviewInterface.tsx:156-158 | An unknown type shows as "Security Vulnerability". |
| CodeReview.FormatTime | src/components/codeReview/CodeReviewInterface.tsx:108-112 | The clock is digits, a colon, then exactly two digits. |
| CodeReview.FormatTimeIsTemplate | src/components/codeReview/CodeReviewInterface.tsx:108-112 | The clock is the floor of the minutes, a colon, and the remaining seconds padded to two digits with zeros. |
| CodeReview.MinutesAndSeconds | src/components/codeReview/CodeReviewInterface.tsx:109-110 | The split gives whole minutes and remaining seconds: the seconds are below 60 and minutes times 60 plus seconds is the input. |
| CodeReview.MinutesAndSecondsIsDivMod | src/components/codeReview/CodeReviewInterface.tsx:109-110 | The split is `Math.floor(seconds / 60)` and `seconds % 60`. |
| CodeReview.SecondsField | src/components/codeReview/CodeReviewInterface.tsx:111 | The seconds field is exactly two digits and reads back as the seconds. |
| CodeReview.SecondsFieldIsPadded | src/components/codeReview/CodeReviewInterface.tsx:111 | The seconds field is `secs.toString().padStart(2, '0')`. |
| CodeReview.Clock | src/components/codeReview/CodeReviewInterface.tsx:111 | The display is digits, a colon, then exactly two digits. |
| CodeReview.ClockRoundTrip | src/components/codeReview/CodeReviewInterface.tsx:111 | Reading a display back gives its minutes times 60 plus its seconds. |
| CodeReview.FormatTimeRoundTrip | src/components/codeReview/CodeReviewInterface.tsx:108-112 | Reading the clock back gives the elapsed seconds. |
| CodeReview.FormatTimeExampleMinutes | src/components/codeReview/CodeReviewInterface.tsx:108-112 | 75 s shows as "1:15". |
| CodeReview.FormatTimeExampleSeconds | src/components/codeReview/CodeReviewInterface.tsx:108-112 | 5 s shows as "0:05": the seconds are padded to two digits. |
| CodeReview.Submitted | src/components/codeReview/CodeReviewInterface.tsx:125-135 | An annotation is made exactly when the description and suggestion are non-empty and a line is selected. The type defaults to "bug" and the severity to medium. |
| CodeReview.DefaultDraftIsNotSubmittable | src/components/codeReview/CodeReviewInterface.tsx:140-145 | A freshly reset form cannot be submitted. |
| CodeReview.RemoveById | src/components/codeReview/CodeReviewInterface.tsx:148-150 | Removing drops exactly the annotations with the id, and keeps every other annotation as often as it occurs, in order. |
| CodeReview.RemoveUndoesAdd | src/components/codeReview/CodeReviewInterface.tsx:137-150 | Removing an annotation just added under a new id restores the list. |
| CodeReview.ReviewSession.constructor | src/components/codeReview/CodeReviewInterface.tsx:69-77 | A session starts with the initial annotations, no line selected, the form closed and the default draft. |
| CodeReview.ReviewSession.LineClick | src/components/codeReview/CodeReviewInterface.tsx:114-123 | In read-only mode nothing changes. Otherwise the line is selected, recorded in the draft, and the form opens. |
| CodeReview.ReviewSession.SetIssueType | src/components/codeReview/CodeReviewInterface.tsx:283 | The draft's type is the chosen one. |
| CodeReview.ReviewSession.SetSeverity | src/components/codeReview/CodeReviewInterface.tsx:300 | The draft's severity is the chosen one. |
| CodeReview.ReviewSession.SetDescription | src/components/codeReview/CodeReviewInterface.tsx:313 | The draft's description is what was typed. |
| CodeReview.ReviewSession.SetSuggestion | src/components/codeReview/CodeReviewInterface.tsx:323 | The draft's suggestion is what was typed. |
| CodeReview.ReviewSession.CancelForm | src/components/codeReview/CodeReviewInterface.tsx:341 | Cancel closes the form. |
| CodeReview.ReviewSession.AddAnnotation | src/components/codeReview/CodeReviewInterface.tsx:125-146 | An incomplete draft changes nothing. Otherwise the `Submitted` annotation is appended, the form closes and resets, and the line is cleared. |
| CodeReview.ReviewSession.RemoveAnnotation | src/components/codeReview/CodeReviewInterface.tsx:148-150 | The annotations become `RemoveById` of the old ones. |
| ChallengesPage.MatchingChallenges | src/pages/ChallengesPage.tsx:97-100 | The kept challenges are those whose title or description contains the query, ignoring case. Each of them is kept as often as it occurs, the others are dropped, and the order is kept. A missing list gives none. |
| ChallengesPage.Narrowed | src/pages/ChallengesPage.tsx:95-105 | The path keeps its id, title, description and icon, and its challenge list is narrowed. |
| ChallengesPage.NarrowAll | src/pages/ChallengesPage.tsx:95-105 | Every path is narrowed, in order. |
| ChallengesPage.FilteredPaths | src/pages/ChallengesPage.tsx:95-121 | The shown paths are the narrowed paths that pass the path test, each as often as it occurs, in their original order. |
| ChallengesPage.BlankQueryShowsEveryPath | src/pages/ChallengesPage.tsx:106-109 | A blank query shows every narrowed path. |
| ChallengesPage.EmptyQueryShowsEverything | src/pages/ChallengesPage.tsx:95-121 | The empty query shows every path with all its challenges, and a missing list becomes empty. |
| ChallengesPage.ShownUnderQuery | src/pages/ChallengesPage.tsx:111-120 | Under a non-blank query, a path is shown exactly when it matches or one of its challenges does. |
| ChallengesPage.BlankQueryEmptiesChallengeLists | src/pages/ChallengesPage.tsx:95-109 | A one-space query shows the path but none of its space-free challenges. |
| ChallengesPage.TypeLabel | src/pages/ChallengesPage.tsx:70-80 | The label is "System Design" or "Code Review" exactly for those two types, and "Coding" exactly for every other type. |
| ChallengesPage.ActionText | src/pages/ChallengesPage.tsx:82-92 | The button reads "Design System" or "Review Code" exactly for those two types, and "Start Challenge" exactly for every other type. |
| Signup.PasswordError | src/pages/SignupPage.tsx:24-30 | Sign-up may proceed exactly when the passwords match and have at least 8 characters. A mismatch is reported first, then shortness. |
| Signup.MismatchTakesPrecedence | src/pages/SignupPage.tsx:24-30 | A short mismatched password reports the mismatch. |
| Signup.LengthBoundary | src/pages/SignupPage.tsx:28-30 | Seven characters are refused, and eight are accepted. |
| Signup.SignupForm.constructor | src/pages/SignupPage.tsx:13-15 | The form starts with no error, no success and not loading. |
| Signup.SignupForm.Submit | src/pages/SignupPage.tsx:19-32 | The flags are cleared. The account is requested exactly when the checks pass, and then loading starts. Otherwise the first failed check is the error. |
| Signup.SignupForm.Settle | src/pages/SignupPage.tsx:34-44 | Loading stops. Success sets the flag. A failure shows its message, or the fallback text when the message is empty. |
| Signup.SuccessfulSignup | src/pages/SignupPage.tsx:19-44 | A matching 8-character password the service accepts ends with success, no error and no loading. |

## Left out

- Rendering is not modelled. That covers canvas drawing (`drawElement`, arrowheads by trigonometry), selection highlights, image export, CodeMirror and all markup and styling. None of it changes the state.
- Pointer coordinates (`getMousePos`) are given as canvas positions. `preventDefault` and `stopPropagation` are not modelled.
- Coordinates are real numbers, not IEEE doubles, so rounding is not modelled.
- DrawingCanvas.Canvas.MouseUp: `Math.sqrt` for the circle radius is a parameter, required to be half the drag distance when the tool is the circle.
- Element ids from `Date.now()`, timestamps and the review clock's timer are parameters. Nothing is assumed about their uniqueness.
- DrawingCanvas.Canvas.Undo: undo, redo, delete and clear do not check read-only mode themselves, because the source hides their toolbar in that mode. They are modelled without the check, as written.
- Geometry.Bounds: a text box is 10 wide per character, whereas the source multiplies `text.length`, which counts UTF-16 code units. A character outside the Basic Multilingual Plane therefore widens the box by 10 here and by 20 in the source, which changes hit testing.
- Geometry.Bounds: the source's default branch for an unknown element type cannot occur, because every element has one of the five shapes.
- The host's `onSave` callback is modelled as the list of snapshots handed over (`saved`). What the host does with them is not part of this model.
- Text.ToLower: only ASCII letters are folded. Other case mappings of `toLowerCase` are not modelled.
- Signup.PasswordError: the length is counted in characters, whereas JavaScript counts UTF-16 code units, so a character outside the Basic Multilingual Plane counts once here and twice in the source.
- CommunityDiscussion.SortPopular: stability for equal scores is not stated. The "newest" and "oldest" orders compare parsed dates and are not modelled.
- `formatTimeAgo`, tag colours, severity colours and icons are presentation only.
- Loading comments and learning paths (`getLearningPaths`, the mock comment data), authentication (`useAuth`, social sign-in), navigation and the three-second redirect after sign-up are I/O. The signed-in user and the request outcome are parameters.
- Signup.SignupForm.Submit: the asynchronous handler is split into its synchronous part and the settlement (`Settle`). Interleavings of several pending submissions are not modelled.
- The comparison's overlay mode and the per-approach metrics tables are display only.
